/** The payloads the intents send, and that the parser makes of each the request it stands for. */
module IntentWire {
  import opened PlayTypes
  import opened PlayDefaults
  import opened Text
  import opened Phases
  import opened PlaySchema
  import opened IntentRequests
  import PlayWire

  /** The condition sent for a rule: its own keys and nothing else. */
  function SentUntil(u: UntilSpec): Json {
    if u.on == Classifier && u.classifier.Some? then ClassifierDict(u.classifier.value, u.polarity)
    else if u.on == Overworld then StableDict(u.on, u.stableFrames)
    else UntilDict(u.on)
  }

  function StableDict(on: UntilOn, stableFrames: nat): Json {
    JObj(["on", "stable_frames"], map["on" := JStr(OnName(on)), "stable_frames" := JInt(stableFrames)])
  }

  function SentCondition(until: Option<UntilSpec>): Json {
    if until.Some? then SentUntil(until.value) else Absent
  }

  /** What is left out of a condition takes its default. */
  lemma {:induction false} KeysRead(j: Json, on: UntilOn, stableFrames: nat, classifier: Option<ClassifierName>,
                                    polarity: Polarity)
    requires j.JObj? && j.Get("on") == JStr(OnName(on)) && 1 <= stableFrames <= MAX_FRAMES_PER_CALL
    requires j.Get("region") == j.Get("threshold") == j.Get("hash") == Absent
    requires j.Get("stable_frames").Or(JInt(12)) == JInt(stableFrames)
    requires j.Get("classifier") == if classifier.Some? then JStr(ClassifierWord(classifier.value)) else Absent
    requires j.Get("classifier_polarity").Or(JStr("appears")) == JStr(PolarityName(polarity))
    requires on != HashEq && on != HashNeq && (on == Classifier ==> classifier.Some?)
    ensures ParseUntil(j) == Ok(Until(UntilSpec(DEFAULT_REGION, on, 0.08, stableFrames, None, classifier, polarity)))
  {
    OnReads(on);
    PolarityReads(polarity);
    if classifier.Some? {
      ClassifierReads(classifier.value);
    }
    OnIsNotNone(on);
  }

  lemma {:induction false} OnIsNotNone(on: UntilOn)
    ensures Canon(OnName(on)) != "none"
  {
    OnReads(on);
  }

  lemma {:induction false} ClassifierArrives(name: ClassifierName, polarity: Polarity)
    ensures ParseUntil(ClassifierDict(name, polarity))
            == Ok(Until(UntilSpec(DEFAULT_REGION, Classifier, 0.08, 12, None, Some(name), polarity)))
  {
    KeysRead(ClassifierDict(name, polarity), Classifier, 12, Some(name), polarity);
  }

  lemma {:induction false} PlainArrives(on: UntilOn)
    requires on != HashEq && on != HashNeq && on != Classifier
    ensures ParseUntil(UntilDict(on)) == Ok(Until(UntilOf(on, 12)))
  {
    KeysRead(UntilDict(on), on, 12, None, Appears);
  }

  lemma {:induction false} StableArrives(on: UntilOn, stableFrames: nat)
    requires on != HashEq && on != HashNeq && on != Classifier && 1 <= stableFrames <= MAX_FRAMES_PER_CALL
    ensures ParseUntil(StableDict(on, stableFrames)) == Ok(Until(UntilOf(on, stableFrames)))
  {
    KeysRead(StableDict(on, stableFrames), on, stableFrames, None, Appears);
  }

  /** The conditions the intents send parse to the rules they mean. */
  lemma {:induction false} UntilArrives(u: UntilSpec)
    requires IntentUntil(u)
    ensures ParseUntil(SentUntil(u)) == Ok(Until(u))
  {
    if u.on == Classifier {
      ClassifierArrives(u.classifier.value, u.polarity);
    } else if u.on == Overworld {
      StableArrives(Overworld, 4);
    } else {
      PlainArrives(u.on);
    }
  }

  function BasePayload(play: PlayInput, mode: ShotMode, until: Json): Payload {
    ArgsBase(PlayArgs([], 0, 0, false, [], None, Appears, None, MediaImage), Steps).(
      gapFrames := Absent, emulationSpeed := JInt(play.emulationSpeed), screenshotScale := JInt(play.screenshotScale),
      screenshotMode := JStr(ModeName(mode)), media := JStr(MediaName(IntentMedia(play))), until := until)
  }

  function WaitPayload(play: PlayInput, frames: nat, until: Json): Payload {
    BasePayload(play, InterruptAndFinal, until).(
      wait := JBool(true), holdFrames := JInt(frames), maxFrames := JInt(frames))
  }

  function MashPayload(play: PlayInput, frames: nat, until: Json): Payload {
    BasePayload(play, IntentMode(play), until).(
      macro := JStr("mash"), mashButton := JStr("a"), mashPressFrames := JInt(12), mashReleaseFrames := JInt(8),
      maxFrames := JInt(frames))
  }

  function HoldPayload(play: PlayInput, direction: Button, frames: nat, until: Json): Payload {
    BasePayload(play, IntentMode(play), until).(
      macro := JStr("hold"), buttons := ButtonsJson([direction]), holdFrames := JInt(frames),
      maxFrames := JInt(frames))
  }

  /** What an ask is sent as. */
  function PayloadOf(play: PlayInput, ask: Ask): Payload {
    match ask
    case WaitFor(frames, until) => WaitPayload(play, frames, SentCondition(until))
    case MashA(frames, until) => MashPayload(play, frames, SentUntil(until))
    case Tap(buttons, hold, gap) => StepsPayload(play, buttons, hold, gap)
    case HoldTo(direction, frames, until) => HoldPayload(play, direction, frames, SentUntil(until))
  }

  /** The speed, the scale and the media word of a play whose intent is run. */
  predicate Sender(play: PlayInput) {
    IsSpeed(play.emulationSpeed) && 1 <= play.screenshotScale <= 4 && WordOk(IntentMedia(play))
  }

  lemma {:induction false} ReadWordOk(s: string)
    requires Strip(s) != ""
    ensures WordOk(MediaNamed(Canon(s)))
  {
    CanonIdempotent(s);
  }

  /** Any request the instance has read. */
  lemma {:induction false} ReadPlaysSend(raw: Payload, sessionSpeed: Json)
    requires PlayWire.ReadRequest(raw, sessionSpeed).Ok?
    ensures Sender(PlayWire.ReadRequest(raw, sessionSpeed).value) && ParseSpeed(sessionSpeed, 0).Ok?
  {
    var body := if !raw.steps.Truthy() then raw.(steps := Absent)
                else if raw.buttons.Truthy() then raw.(buttons := Absent) else raw;
    ParseNormalises(body, sessionSpeed);
    if raw.media.JStr? && Strip(raw.media.s) != "" {
      ReadWordOk(raw.media.s);
    }
  }

  /** The condition reads as the rule. */
  predicate ReadsAs(j: Json, until: Option<UntilSpec>) {
    ParseUntil(j) == Ok(if until.Some? then Until(until.value) else NoUntil)
  }

  function BaseHead(play: PlayInput, mode: ShotMode, until: Option<UntilSpec>): Head {
    Head(mode, play.screenshotScale, play.emulationSpeed, 0, until, 4, false, false, DEFAULT_HASH_REGIONS, None)
  }

  lemma {:induction false} BaseReads(play: PlayInput, mode: ShotMode, j: Json, until: Option<UntilSpec>,
                                     sessionSpeed: Json, b: Payload)
    requires Sender(play) && ReadsAs(j, until) && ParseSpeed(sessionSpeed, 0).Ok?
    requires b == BasePayload(play, mode, j).(
                    macro := b.macro, wait := b.wait, buttons := b.buttons, holdFrames := b.holdFrames,
                    maxFrames := b.maxFrames, mashButton := b.mashButton, mashPressFrames := b.mashPressFrames,
                    mashReleaseFrames := b.mashReleaseFrames)
    ensures ParseHead(b, sessionSpeed) == Ok(BaseHead(play, mode, until))
  {
    ModeReads(mode);
  }

  function StepsPayload(play: PlayInput, buttons: seq<Button>, hold: nat, gap: nat): Payload {
    BasePayload(play, IntentMode(play), Absent).(steps := JArr(PressItems(buttons, hold, gap)))
  }

  function PressItems(buttons: seq<Button>, hold: nat, gap: nat): seq<Json> {
    seq(|buttons|, i requires 0 <= i < |buttons| => PressItem(buttons[i], hold, gap))
  }

  function PressItem(b: Button, hold: nat, gap: nat): Json {
    JObj(["buttons", "hold_frames", "gap_frames"],
         map["buttons" := JArr([JStr(ButtonName(b))]), "hold_frames" := JInt(hold), "gap_frames" := JInt(gap)])
  }

  lemma {:induction false} PressItemReads(b: Button, hold: nat, gap: nat)
    requires 1 <= hold <= MAX_HOLD_FRAMES && gap <= MAX_GAP_FRAMES
    ensures ParseStep(PressItem(b, hold, gap), 0) == Ok(InputStep([b], hold, gap, false))
  {
    PlayWire.ParseButtonsBack([b], true);
    assert ButtonsJson([b]).items == [JStr(ButtonName(b))];
    var j := PressItem(b, hold, gap);
    assert j.Get("buttons") == ButtonsJson([b]) && j.Get("wait") == Absent;
    assert j.Get("hold_frames") == JInt(hold) && j.Get("gap_frames") == JInt(gap);
  }

  lemma {:induction false} PressSnoc(buttons: seq<Button>, b: Button, hold: nat, gap: nat)
    ensures PressItems(buttons + [b], hold, gap) == PressItems(buttons, hold, gap) + [PressItem(b, hold, gap)]
    ensures ButtonSteps(buttons + [b], hold, gap) == ButtonSteps(buttons, hold, gap)
        + [InputStep([b], hold, gap, false)]
  {
  }

  lemma {:induction false} PressItemsRead(buttons: seq<Button>, hold: nat, gap: nat)
    requires 1 <= hold <= MAX_HOLD_FRAMES && gap <= MAX_GAP_FRAMES
    ensures StepList(PressItems(buttons, hold, gap), 0) == Ok(ButtonSteps(buttons, hold, gap))
  {
    if buttons != [] {
      var front, last := buttons[..|buttons| - 1], buttons[|buttons| - 1];
      PressItemsRead(front, hold, gap);
      PressItemReads(last, hold, gap);
      StepListSnoc(PressItems(front, hold, gap), PressItem(last, hold, gap), 0, ButtonSteps(front, hold, gap),
                   InputStep([last], hold, gap, false));
      PressSnoc(front, last, hold, gap);
      assert front + [last] == buttons;
    } else {
      assert PressItems(buttons, hold, gap) == [] && ButtonSteps(buttons, hold, gap) == [];
    }
  }

  lemma {:induction false} PressFrames(buttons: seq<Button>, hold: nat, gap: nat)
    ensures ScriptFrames(ButtonSteps(buttons, hold, gap)) == |buttons| * (hold + gap)
  {
    if buttons != [] {
      PressFrames(buttons[1..], hold, gap);
      assert ButtonSteps(buttons, hold, gap)[1..] == ButtonSteps(buttons[1..], hold, gap);
      assert |buttons| * (hold + gap) == |buttons[1..]| * (hold + gap) + (hold + gap);
    }
  }

  /** What a payload's pieces read as, the parser reads. */
  lemma {:induction false} SentParsed(b: Payload, h: Head, macro: Option<Macro>, keys: MashKeys, holdFrames: nat,
                                      shape: Shape, sessionSpeed: Json)
    requires ParseHead(b, sessionSpeed) == Ok(h) && ParseMacro(b.macro) == Ok(macro) && ParseMash(b) == Ok(keys)
    requires Bounded(b.holdFrames, 1, MAX_HOLD_FRAMES, 1) == Ok(holdFrames)
    requires ParseShape(b, macro, holdFrames, h.gap) == Ok(shape)
    requires b.steps == Absent || (b.buttons == Absent && macro == None)
    requires b.callTimeoutSeconds == Absent
    ensures ParsePlayInput(b, sessionSpeed)
            == Ok(Assemble(h, keys, shape, TimeoutFor(h.speed, Min(shape.planned, shape.maxFrames)), ParseExtra(b)))
  {
  }

  lemma {:induction false} SentExtra(b: Payload, m: Media)
    requires b.publicMash == Absent && b.media == JStr(MediaName(m)) && WordOk(m)
    ensures ParseExtra(b).publicMash == false && ParseExtra(b).intent == None
    ensures var media := ParseExtra(b).media;
            Some(m) == if media.None? && Strip(b.media.s) != "" then Some(MediaNamed(Canon(b.media.s))) else media
  {
    MediaReads(m);
  }

  /** ... and the instance reads. */
  lemma {:induction false} SentReads(b: Payload, h: Head, macro: Option<Macro>, keys: MashKeys, holdFrames: nat,
                                     shape: Shape, m: Media, sessionSpeed: Json)
    requires ParseHead(b, sessionSpeed) == Ok(h) && ParseMacro(b.macro) == Ok(macro) && ParseMash(b) == Ok(keys)
    requires Bounded(b.holdFrames, 1, MAX_HOLD_FRAMES, 1) == Ok(holdFrames)
    requires ParseShape(b, macro, holdFrames, h.gap) == Ok(shape)
    requires b.steps == Absent || (b.steps.Truthy() && b.buttons == Absent && macro == None)
    requires b.callTimeoutSeconds == Absent && b.publicMash == Absent && b.media == JStr(MediaName(m)) && WordOk(m)
    ensures PlayWire.ReadRequest(b, sessionSpeed)
            == Ok(Assemble(h, keys, shape, TimeoutFor(h.speed, Min(shape.planned, shape.maxFrames)),
                           Extra(Some(m), false, None)))
  {
    SentParsed(b, h, macro, keys, holdFrames, shape, sessionSpeed);
    SentExtra(b, m);
    var body := if !b.steps.Truthy() then b.(steps := Absent) else b;
    assert body == b;
  }

  lemma {:induction false} WaitShape(b: Payload, frames: nat)
    requires b.steps == Absent && b.buttons == Absent && b.wait == JBool(true) && b.maxFrames == JInt(frames)
    requires 1 <= frames <= MAX_FRAMES_PER_CALL
    ensures ParseShape(b, None, frames, 0)
            == Ok(Shape(Steps, [InputStep([], frames, 0, true)], [], frames, frames, frames))
  {
  }

  lemma {:induction false} HoldShape(b: Payload, direction: Button, frames: nat)
    requires b.steps == Absent && b.buttons == ButtonsJson([direction]) && b.maxFrames == JInt(frames)
    requires 1 <= frames <= MAX_FRAMES_PER_CALL
    ensures ParseShape(b, Some(Hold), frames, 0) == Ok(Shape(Hold, [], [direction], frames, frames, frames))
  {
    PlayWire.ParseButtonsBack([direction], true);
  }

  /** A sent wait, mash, hold or script is the request the intent means. */
  lemma {:induction false} WaitReads(play: PlayInput, frames: nat, j: Json, until: Option<UntilSpec>,
                                     sessionSpeed: Json)
    requires Sender(play) && ReadsAs(j, until) && ParseSpeed(sessionSpeed, 0).Ok?
    requires 1 <= frames <= MAX_FRAMES_PER_CALL
    ensures PlayWire.ReadRequest(WaitPayload(play, frames, j), sessionSpeed) == Ok(WaitPlay(play, frames, until))
  {
    var b := WaitPayload(play, frames, j);
    BaseReads(play, InterruptAndFinal, j, until, sessionSpeed, b);
    WaitShape(b, frames);
    SentReads(b, BaseHead(play, InterruptAndFinal, until), None, MashKeys(A, 4, 4), frames,
              Shape(Steps, [InputStep([], frames, 0, true)], [], frames, frames, frames), IntentMedia(play),
              sessionSpeed);
  }

  lemma {:induction false} MashKeysRead(b: Payload)
    requires b.mashButton == JStr("a") && b.mashPressFrames == JInt(12) && b.mashReleaseFrames == JInt(8)
    ensures ParseMash(b) == Ok(MashKeys(A, 12, 8))
  {
    ButtonReads(A);
  }

  lemma {:induction false} MashShape(b: Payload, frames: nat)
    requires b.steps == Absent && b.maxFrames == JInt(frames) && 1 <= frames <= MAX_FRAMES_PER_CALL
    ensures ParseShape(b, Some(Mash), 1, 0) == Ok(Shape(Mash, [], [], frames, frames, frames))
  {
  }

  lemma {:induction false} MashPieces(b: Payload, frames: nat)
    requires b.macro == JStr("mash") && b.mashButton == JStr("a") && b.mashPressFrames == JInt(12)
    requires b.mashReleaseFrames == JInt(8) && b.steps == Absent && b.holdFrames == Absent
    requires b.maxFrames == JInt(frames) && 1 <= frames <= MAX_FRAMES_PER_CALL
    ensures ParseMacro(b.macro) == Ok(Some(Mash)) && ParseMash(b) == Ok(MashKeys(A, 12, 8))
    ensures Bounded(b.holdFrames, 1, MAX_HOLD_FRAMES, 1) == Ok(1)
    ensures ParseShape(b, Some(Mash), 1, 0) == Ok(Shape(Mash, [], [], frames, frames, frames))
  {
    MacroReads(Mash);
    MashKeysRead(b);
    MashShape(b, frames);
  }

  lemma {:induction false} MashReads(play: PlayInput, frames: nat, j: Json, until: UntilSpec, sessionSpeed: Json)
    requires Sender(play) && ReadsAs(j, Some(until)) && ParseSpeed(sessionSpeed, 0).Ok?
    requires 1 <= frames <= MAX_FRAMES_PER_CALL
    ensures PlayWire.ReadRequest(MashPayload(play, frames, j), sessionSpeed) == Ok(MashPlay(play, frames, until))
  {
    var b := MashPayload(play, frames, j);
    BaseReads(play, IntentMode(play), j, Some(until), sessionSpeed, b);
    MashPieces(b, frames);
    SentReads(b, BaseHead(play, IntentMode(play), Some(until)), Some(Mash), MashKeys(A, 12, 8), 1,
              Shape(Mash, [], [], frames, frames, frames), IntentMedia(play), sessionSpeed);
  }

  lemma {:induction false} HoldReads(play: PlayInput, direction: Button, frames: nat, j: Json, until: UntilSpec,
                                     sessionSpeed: Json)
    requires Sender(play) && ReadsAs(j, Some(until)) && ParseSpeed(sessionSpeed, 0).Ok?
    requires 1 <= frames <= MAX_FRAMES_PER_CALL
    ensures PlayWire.ReadRequest(HoldPayload(play, direction, frames, j), sessionSpeed)
        == Ok(HoldPlay(play, direction, frames, until))
  {
    var b := HoldPayload(play, direction, frames, j);
    BaseReads(play, IntentMode(play), j, Some(until), sessionSpeed, b);
    MacroReads(Hold);
    HoldShape(b, direction, frames);
    SentReads(b, BaseHead(play, IntentMode(play), Some(until)), Some(Hold), MashKeys(A, 4, 4), frames,
              Shape(Hold, [], [direction], frames, frames, frames), IntentMedia(play), sessionSpeed);
  }

  lemma {:induction false} PressShape(b: Payload, buttons: seq<Button>, hold: nat, gap: nat)
    requires buttons != [] && |buttons| <= MAX_INPUT_STEPS && 1 <= hold <= MAX_HOLD_FRAMES && gap <= MAX_GAP_FRAMES
    requires 1 <= |buttons| * (hold + gap) <= MAX_FRAMES_PER_CALL
    requires b.steps == JArr(PressItems(buttons, hold, gap)) && b.maxFrames == Absent
    ensures var planned := |buttons| * (hold + gap);
            ParseShape(b, None, 1, 0) == Ok(Shape(Steps, ButtonSteps(buttons, hold, gap), [], 1, planned, planned))
  {
    PressItemsRead(buttons, hold, gap);
    PressFrames(buttons, hold, gap);
    assert |PressItems(buttons, hold, gap)| == |buttons|;
  }

  lemma {:induction false} HeadWithoutSteps(b: Payload, sessionSpeed: Json)
    ensures ParseHead(b, sessionSpeed) == ParseHead(b.(steps := Absent), sessionSpeed)
  {
  }

  lemma {:induction false} StepsHead(play: PlayInput, buttons: seq<Button>, hold: nat, gap: nat, sessionSpeed: Json)
    requires Sender(play) && ParseSpeed(sessionSpeed, 0).Ok?
    ensures ParseHead(StepsPayload(play, buttons, hold, gap), sessionSpeed)
            == Ok(BaseHead(play, IntentMode(play), None))
  {
    var b := StepsPayload(play, buttons, hold, gap);
    BaseReads(play, IntentMode(play), Absent, None, sessionSpeed, b.(steps := Absent));
    HeadWithoutSteps(b, sessionSpeed);
  }

  lemma {:induction false} StepsBuilt(play: PlayInput, buttons: seq<Button>, hold: nat, gap: nat, planned: nat)
    requires planned == |buttons| * (hold + gap)
    ensures Assemble(BaseHead(play, IntentMode(play), None), MashKeys(A, 4, 4), StepsShape(buttons, hold, gap, planned),
                     TimeoutFor(play.emulationSpeed, Min(planned, planned)),
                     Extra(Some(IntentMedia(play)), false, None))
            == StepsPlay(play, buttons, hold, gap)
  {
  }

  function StepsShape(buttons: seq<Button>, hold: nat, gap: nat, planned: nat): Shape {
    Shape(Steps, ButtonSteps(buttons, hold, gap), [], 1, planned, planned)
  }

  /** A script whose pieces read as they should reads as a whole. */
  lemma {:induction false} ScriptReads(b: Payload, play: PlayInput, shape: Shape, planned: nat, sessionSpeed: Json)
    requires Sender(play) && shape.planned == shape.maxFrames == planned
    requires ParseHead(b, sessionSpeed) == Ok(BaseHead(play, IntentMode(play), None))
    requires ParseShape(b, None, 1, 0) == Ok(shape)
    requires b.macro == Absent && b.mashButton == Absent && b.mashPressFrames == Absent && b.mashReleaseFrames == Absent
    requires b.holdFrames == Absent && b.steps.Truthy() && b.buttons == Absent
    requires b.callTimeoutSeconds == Absent && b.publicMash == Absent && b.media == JStr(MediaName(IntentMedia(play)))
    ensures PlayWire.ReadRequest(b, sessionSpeed)
            == Ok(Assemble(BaseHead(play, IntentMode(play), None), MashKeys(A, 4, 4), shape,
                           TimeoutFor(play.emulationSpeed, Min(planned, planned)),
                           Extra(Some(IntentMedia(play)), false, None)))
  {
    SentReads(b, BaseHead(play, IntentMode(play), None), None, MashKeys(A, 4, 4), 1, shape, IntentMedia(play),
              sessionSpeed);
  }

  lemma {:induction false} StepsRead(play: PlayInput, buttons: seq<Button>, hold: nat, gap: nat, sessionSpeed: Json)
    requires Sender(play) && ParseSpeed(sessionSpeed, 0).Ok? && AskOk(Tap(buttons, hold, gap))
    ensures PlayWire.ReadRequest(StepsPayload(play, buttons, hold, gap), sessionSpeed)
            == Ok(StepsPlay(play, buttons, hold, gap))
  {
    var b, planned := StepsPayload(play, buttons, hold, gap), |buttons| * (hold + gap);
    ScriptLength(buttons, hold, gap);
    StepsHead(play, buttons, hold, gap, sessionSpeed);
    PressShape(b, buttons, hold, gap);
    ScriptReads(b, play, StepsShape(buttons, hold, gap, planned), planned, sessionSpeed);
    StepsBuilt(play, buttons, hold, gap, planned);
  }

  lemma {:induction false} ScriptLength(buttons: seq<Button>, hold: nat, gap: nat)
    requires |buttons| >= 1 && hold >= 1
    ensures |buttons| * (hold + gap) >= 1
  {
    assert |buttons| * (hold + gap) == (|buttons| - 1) * (hold + gap) + (hold + gap);
  }

  /** Every ask within the limits arrives as the request it stands for. */
  lemma {:induction false} AskArrives(play: PlayInput, ask: Ask, sessionSpeed: Json)
    requires Sender(play) && AskOk(ask) && ParseSpeed(sessionSpeed, 0).Ok?
    ensures PlayWire.ReadRequest(PayloadOf(play, ask), sessionSpeed) == Ok(RequestOf(play, ask))
  {
    match ask
    case WaitFor(frames, until) =>
      if until.Some? {
        UntilArrives(until.value);
      }
      WaitReads(play, frames, SentCondition(until), until, sessionSpeed);
    case MashA(frames, until) =>
      UntilArrives(until);
      MashReads(play, frames, SentUntil(until), until, sessionSpeed);
    case Tap(buttons, hold, gap) => StepsRead(play, buttons, hold, gap, sessionSpeed);
    case HoldTo(direction, frames, until) =>
      UntilArrives(until);
      HoldReads(play, direction, frames, SentUntil(until), until, sessionSpeed);
  }
}
