/** The small play calls an intent is made of. */
module IntentRequests {
  import opened PlayTypes
  import opened PlayDefaults

  function IntentMedia(play: PlayInput): Media { if play.extra.media.Some? then play.extra.media.value else MediaImage }

  function IntentMode(play: PlayInput): ShotMode {
    if IntentMedia(play) == MediaVideo then Keyframes
    else if play.screenshotMode == Keyframes || play.screenshotMode == All then play.screenshotMode
    else Final
  }

  function UntilOf(on: UntilOn, stableFrames: nat): UntilSpec {
    UntilSpec(DEFAULT_REGION, on, 0.08, stableFrames, None, None, Appears)
  }

  function TextboxUntil(polarity: Polarity): UntilSpec {
    UntilSpec(DEFAULT_REGION, Classifier, 0.08, 12, None, Some(TextboxLikely), polarity)
  }

  function BattleGone(): UntilSpec {
    UntilSpec(DEFAULT_REGION, Classifier, 0.08, 12, None, Some(BattleLikely), Disappears)
  }

  /** A request with the defaults of the parser, for some frames at the caller's speed and scale. */
  function BasePlay(play: PlayInput, macro: Macro, frames: nat, mode: ShotMode): PlayInput {
    PlayInput(macro, [], [], frames, A, 4, 4, frames, 0, play.emulationSpeed, mode, play.screenshotScale, None, 4,
              false, macro == Hold, DEFAULT_HASH_REGIONS, false, TimeoutFor(play.emulationSpeed, frames), frames, None,
              Extra(Some(IntentMedia(play)), false, None))
  }

  function WaitPlay(play: PlayInput, frames: nat, until: Option<UntilSpec>): PlayInput {
    BasePlay(play, Steps, frames, InterruptAndFinal).(steps := [InputStep([], frames, 0, true)], until := until)
  }

  /** Twelve frames (or `hold`) of each button, four released after each. */
  function ButtonSteps(buttons: seq<Button>, hold: nat, gap: nat): seq<InputStep> {
    seq(|buttons|, i requires 0 <= i < |buttons| => InputStep([buttons[i]], hold, gap, false))
  }

  function StepsPlay(play: PlayInput, buttons: seq<Button>, hold: nat, gap: nat): PlayInput {
    BasePlay(play, Steps, |buttons| * (hold + gap), IntentMode(play)).(
      steps := ButtonSteps(buttons, hold, gap), holdFrames := 1)
  }

  function MashPlay(play: PlayInput, frames: nat, until: UntilSpec): PlayInput {
    BasePlay(play, Mash, frames, IntentMode(play)).(mashPressFrames := 12, mashReleaseFrames := 8, until := Some(until))
  }

  function HoldPlay(play: PlayInput, direction: Button, frames: nat, until: UntilSpec): PlayInput {
    BasePlay(play, Hold, frames, IntentMode(play)).(buttons := [direction], until := Some(until))
  }

  /** What an intent asks for, and the request that stands for it. */
  datatype Ask =
    | WaitFor(frames: nat, until: Option<UntilSpec>)
    | MashA(frames: nat, stop: UntilSpec)
    | Tap(buttons: seq<Button>, hold: nat, gap: nat)
    | HoldTo(direction: Button, frames: nat, stop: UntilSpec)

  /** The rules an intent sends. */
  predicate IntentUntil(u: UntilSpec) {
    || u == TextboxUntil(Appears) || u == TextboxUntil(Disappears) || u == BattleGone()
    || u == UntilOf(Overworld, 4) || u == UntilOf(LumaJump, 12)
  }

  /** Within the limits of the parser. */
  predicate AskOk(ask: Ask) {
    match ask
    case WaitFor(frames, until) =>
      1 <= frames <= MAX_FRAMES_PER_CALL && (until.Some? ==> IntentUntil(until.value))
    case MashA(frames, stop) => 1 <= frames <= MAX_FRAMES_PER_CALL && IntentUntil(stop)
    case Tap(buttons, hold, gap) =>
      && 1 <= |buttons| <= MAX_INPUT_STEPS && 1 <= hold <= MAX_HOLD_FRAMES && gap <= MAX_GAP_FRAMES
      && |buttons| * (hold + gap) <= MAX_FRAMES_PER_CALL
    case HoldTo(_, frames, stop) => 1 <= frames <= MAX_FRAMES_PER_CALL && IntentUntil(stop)
  }

  function RequestOf(play: PlayInput, ask: Ask): PlayInput {
    match ask
    case WaitFor(frames, until) => WaitPlay(play, frames, until)
    case MashA(frames, until) => MashPlay(play, frames, until)
    case Tap(buttons, hold, gap) => StepsPlay(play, buttons, hold, gap)
    case HoldTo(direction, frames, until) => HoldPlay(play, direction, frames, until)
  }

  /** The most frames an ask can report: a fired mash rests for twelve. */
  function MostFrames(ask: Ask): nat {
    match ask
    case WaitFor(frames, _) => frames
    case MashA(frames, _) => frames + 12
    case Tap(buttons, hold, gap) => |buttons| * (hold + gap)
    case HoldTo(_, frames, _) => frames
  }
}
