/** Values shared by the play loop: joypad chords, scripts and the normalised play request. */
module PlayTypes {

  datatype Option<+T> = None | Some(value: T)

  datatype Result<+T> = Ok(value: T) | Err(error: string)
  {
    predicate IsFailure() { Err? }

    function PropagateFailure<U>(): Result<U>
      requires Err?
    {
      Err(error)
    }

    function Extract(): T
      requires Ok?
    {
      value
    }
  }

  /** The eight joypad names. */
  datatype Button = A | B | Start | Select | Up | Down | Left | Right

  predicate Directional(b: Button) { b.Up? || b.Down? || b.Left? || b.Right? }

  /** The set of buttons held down during one emulated frame. */
  type Chord = set<Button>

  /** What the LCD shows is a function of every chord played so far, so the chord history itself
      stands for the picture: any deterministic emulator's picture is computed from it. */
  type Frame = seq<Chord>

  datatype InputStep = InputStep(buttons: seq<Button>, holdFrames: nat, gapFrames: nat, wait: bool)

  datatype Macro = Hold | Mash | Steps | Buttons

  datatype ShotMode = Final | All | InterruptAndFinal | Keyframes

  /** A box [x, y, w, h] in native LCD coordinates. */
  datatype Region = Region(x: int, y: int, w: int, h: int)

  datatype UntilOn = DeltaAbove | DeltaBelow | Stable | HashEq | HashNeq | Classifier | LumaJump | Blocked | Overworld

  datatype ClassifierName = TextboxLikely | BattleLikely | StartMenuLikely

  datatype Polarity = Appears | Disappears

  datatype UntilSpec = UntilSpec(
    region: Region,
    on: UntilOn,
    threshold: real,
    stableFrames: nat,
    hash: Option<string>,
    classifier: Option<ClassifierName>,
    polarity: Polarity)

  datatype Intent = AdvanceText | RunAway | BattleTurn | BattleUntilOverworld | SkipIntro | EnterDoor

  /** `MediaOther` is a word the instance keeps without knowing it. */
  datatype Media = MediaOff | MediaImage | MediaVideo | MediaOther(word: string)

  /** The free-form tail of a request; `intent` is a second copy kept beside the request's own. */
  datatype Extra = Extra(media: Option<Media>, publicMash: bool, intent: Option<Intent>)

  /** One normalised request, as the tick engine consumes it. */
  datatype PlayInput = PlayInput(
    macro: Macro,
    steps: seq<InputStep>,
    buttons: seq<Button>,
    holdFrames: nat,
    mashButton: Button,
    mashPressFrames: nat,
    mashReleaseFrames: nat,
    maxFrames: nat,
    gapFrames: nat,
    emulationSpeed: nat,
    screenshotMode: ShotMode,
    screenshotScale: nat,
    until: Option<UntilSpec>,
    untilEvalInterval: int,
    disableDefaultHoldAbort: bool,
    applyDefaultHoldAbort: bool,
    hashRegions: map<string, Region>,
    ocr: bool,
    callTimeoutSeconds: real,
    plannedFrames: nat,
    intent: Option<Intent>,
    extra: Extra)

  const MAX_FRAMES_PER_CALL := 21600
  const MAX_HOLD_FRAMES: nat := 21600
  const MAX_GAP_FRAMES: nat := 180
  const MAX_INPUT_STEPS := 500

  function Min(a: int, b: int): int { if a <= b then a else b }

  function Max(a: int, b: int): int { if a >= b then a else b }
}
