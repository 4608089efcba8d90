/** The wire form a normalised request travels in from the host to the play instance, where it is
    parsed again: it arrives as the same play. */
module PlayWire {
  import opened PlayTypes
  import opened PlayDefaults
  import opened Text
  import opened Phases
  import opened EngineReference
  import opened UntilMonitor
  import opened PlaySchema

  // ---------------------------------------------------------------------------------------------
  // The wire form

  function UntilJson(u: UntilSpec): Json {
    JObj(["region", "on", "threshold", "stable_frames", "hash", "classifier", "classifier_polarity"],
         map["region" := RegionJson(u.region), "on" := JStr(OnName(u.on)), "threshold" := JReal(u.threshold),
             "stable_frames" := JInt(u.stableFrames), "hash" := if u.hash.Some? then JStr(u.hash.value) else JNull,
             "classifier" := if u.classifier.Some? then JStr(ClassifierWord(u.classifier.value)) else JNull,
             "classifier_polarity" := JStr(PolarityName(u.polarity))])
  }

  function RegionFields(regions: map<string, Region>): map<string, Json> {
    map k | k in regions :: RegionJson(regions[k])
  }

  /** The request as a JSON object; `order` is the order of the region names. */
  function ToPayload(p: PlayInput, order: seq<string>): Payload {
    var intent := if p.extra.intent.Some? then p.extra.intent else p.intent;
    Payload(
      JStr(MacroName(p.macro)), JArr(seq(|p.steps|, i requires 0 <= i < |p.steps| => StepJson(p.steps[i]))),
      ButtonsJson(p.buttons), Absent, JInt(p.holdFrames), JStr(ButtonName(p.mashButton)), JInt(p.mashPressFrames),
      JInt(p.mashReleaseFrames), JInt(p.maxFrames), JInt(p.gapFrames), JInt(p.emulationSpeed),
      JStr(ModeName(p.screenshotMode)), JInt(p.screenshotScale),
      if p.until.Some? then UntilJson(p.until.value) else JNull,
      JInt(p.untilEvalInterval), JBool(p.disableDefaultHoldAbort),
      JObj(order, RegionFields(p.hashRegions)), JBool(p.ocr), JReal(p.callTimeoutSeconds),
      if intent.Some? then JStr(IntentName(intent.value)) else JNull,
      if p.extra.media.Some? then JStr(MediaName(p.extra.media.value)) else Absent,
      if p.extra.publicMash then JBool(true) else Absent)
  }

  /** On the way, a list of steps that is empty is dropped, and a missing screenshot mode filled in. */
  function Transport(raw: Payload): Payload {
    raw.(steps := if raw.steps.Truthy() then raw.steps else Absent,
         screenshotMode := if raw.screenshotMode.Truthy() then raw.screenshotMode else JStr("final"))
  }

  /** The instance reads a request: steps outrank a top-level chord. */
  function ReadRequest(raw: Payload, sessionSpeed: Json): Result<PlayInput> {
    var body := if !raw.steps.Truthy() then raw.(steps := Absent)
                else if raw.buttons.Truthy() then raw.(buttons := Absent) else raw;
    var play :- ParsePlayInput(body, sessionSpeed);
    var media := if play.extra.media.None? && raw.media.JStr? && Strip(raw.media.s) != ""
                 then Some(MediaNamed(Canon(raw.media.s))) else play.extra.media;
    Ok(play.(extra := Extra(media, play.extra.publicMash || raw.publicMash.Truthy(), play.extra.intent)))
  }

  /** What arrives: a chord has become a one-step script, and the second copy of the intent is gone. */
  function Arrived(p: PlayInput): PlayInput {
    p.(macro := if p.macro == Buttons then Steps else p.macro, buttons := if p.macro == Buttons then [] else p.buttons,
       extra := p.extra.(intent := None))
  }

  // ---------------------------------------------------------------------------------------------
  // Reading back what was written

  lemma {:induction false} ButtonListSnoc(items: seq<Json>, j: Json, buttons: seq<Button>, b: Button)
    requires ButtonList(items) == Ok(buttons) && ParseButton(j) == Ok(b) && b !in buttons
    ensures ButtonList(items + [j]) == Ok(buttons + [b])
  {
    assert (items + [j])[..|items|] == items;
  }

  lemma {:induction false} ButtonsJsonSnoc(front: seq<Button>, last: Button)
    ensures ButtonsJson(front + [last]).items == ButtonsJson(front).items + [JStr(ButtonName(last))]
  {
  }

  lemma {:induction false} DistinctSnoc(front: seq<Button>, last: Button)
    requires Distinct(front + [last])
    ensures Distinct(front) && last !in front
  {
    var all := front + [last];
    assert all[..|front|] == front && all[|front|] == last;
    forall i | 0 <= i < |front| ensures front[i] != last {
      assert all[i] == front[i];
    }
    assert forall i :: 0 <= i < |front| ==> all[i] == front[i];
  }

  lemma {:induction false} ButtonsReadBack(buttons: seq<Button>)
    requires Distinct(buttons)
    ensures ButtonList(ButtonsJson(buttons).items) == Ok(buttons)
  {
    if buttons != [] {
      var front, last := buttons[..|buttons| - 1], buttons[|buttons| - 1];
      assert buttons == front + [last];
      DistinctSnoc(front, last);
      ButtonsReadBack(front);
      ButtonReads(last);
      ButtonsJsonSnoc(front, last);
      ButtonListSnoc(ButtonsJson(front).items, JStr(ButtonName(last)), front, last);
    }
  }

  lemma {:induction false} ParseButtonsBack(buttons: seq<Button>, allowEmpty: bool)
    requires Distinct(buttons) && (buttons != [] || allowEmpty)
    ensures ParseButtons(ButtonsJson(buttons), allowEmpty) == Ok(buttons)
  {
    ButtonsReadBack(buttons);
  }

  lemma {:induction false} StepReadsBack(step: InputStep, gap: nat)
    requires StepOk(step)
    ensures ParseStep(StepJson(step), gap) == Ok(step)
  {
    ParseButtonsBack(step.buttons, true);
    var j := StepJson(step);
    assert j.Get("buttons") == ButtonsJson(step.buttons) && j.Get("wait") == JBool(step.wait);
    assert j.Get("hold_frames") == JInt(step.holdFrames) && j.Get("gap_frames") == JInt(step.gapFrames);
  }

  lemma {:induction false} StepsReadBack(steps: seq<InputStep>, gap: nat)
    requires forall i :: 0 <= i < |steps| ==> StepOk(steps[i])
    ensures StepList(StepItems(steps), gap) == Ok(steps)
  {
    if steps != [] {
      var front, last := steps[..|steps| - 1], steps[|steps| - 1];
      StepsReadBack(front, gap);
      StepReadsBack(last, gap);
      assert StepItems(steps)[..|steps| - 1] == StepItems(front);
      assert steps == front + [last];
    }
  }

  lemma {:induction false} RegionReadsBack(r: Region)
    requires OnScreen(r)
    ensures ParseRegion(RegionJson(r)) == Ok(r)
  {
  }

  lemma {:induction false} UntilFields(u: UntilSpec)
    ensures var j := UntilJson(u);
            && j.Get("region") == RegionJson(u.region) && j.Get("on") == JStr(OnName(u.on))
            && j.Get("threshold") == JReal(u.threshold) && j.Get("stable_frames") == JInt(u.stableFrames)
            && j.Get("hash") == (if u.hash.Some? then JStr(u.hash.value) else JNull)
            && j.Get("classifier") == (if u.classifier.Some? then JStr(ClassifierWord(u.classifier.value)) else JNull)
            && j.Get("classifier_polarity") == JStr(PolarityName(u.polarity))
  {
  }

  lemma {:induction false} UntilReadsBack(u: UntilSpec)
    requires UntilOk(u)
    ensures ParseUntil(UntilJson(u)) == Ok(Until(u))
  {
    UntilFields(u);
    OnReads(u.on);
    PolarityReads(u.polarity);
    RegionReadsBack(u.region);
    if u.classifier.Some? {
      ClassifierReads(u.classifier.value);
    }
  }

  /** Each region name once, in some order. */
  ghost predicate Lists(order: seq<string>, names: set<string>) {
    && (forall k :: k in order <==> k in names)
    && forall i, j :: 0 <= i < j < |order| ==> order[i] != order[j]
  }

  lemma {:induction false} RegionTableReadsBack(order: seq<string>, regions: map<string, Region>)
    requires RegionsOk(regions) && forall k :: k in order ==> k in regions
    ensures RegionTable(order, RegionFields(regions)).Ok?
    ensures var table := RegionTable(order, RegionFields(regions)).value;
            && (forall k :: k in table <==> k in order || k in DEFAULT_HASH_REGIONS)
            && (forall k :: k in order ==> table[k] == regions[k])
  {
    if order != [] {
      var front, last := order[..|order| - 1], order[|order| - 1];
      assert forall k :: k in order <==> k in front || k == last;
      RegionTableReadsBack(front, regions);
      RegionReadsBack(regions[last]);
    }
  }

  lemma {:induction false} SameTable(table: map<string, Region>, regions: map<string, Region>, order: seq<string>)
    requires Lists(order, regions.Keys) && DEFAULT_HASH_REGIONS.Keys <= regions.Keys
    requires forall k :: k in table <==> k in order || k in DEFAULT_HASH_REGIONS
    requires forall k :: k in order ==> table[k] == regions[k]
    ensures table == regions
  {
    forall k ensures k in table <==> k in regions {
      assert k in DEFAULT_HASH_REGIONS <==> k in DEFAULT_HASH_REGIONS.Keys;
      assert k in regions <==> k in regions.Keys;
    }
    forall k | k in table ensures table[k] == regions[k] {
      assert k in regions.Keys;
      assert k in order;
    }
  }

  lemma {:induction false} HashRegionsReadBack(order: seq<string>, regions: map<string, Region>)
    requires RegionsOk(regions) && Lists(order, regions.Keys)
    ensures ParseHashRegions(JObj(order, RegionFields(regions))) == Ok(regions)
  {
    RegionTableReadsBack(order, regions);
    var table := RegionTable(order, RegionFields(regions)).value;
    SameTable(table, regions, order);
  }

  // ---------------------------------------------------------------------------------------------
  // The round trip

  /** The request as it is finally parsed: no empty script, and no chord beside a script. */
  function Body(p: PlayInput, order: seq<string>): Payload {
    var raw := ToPayload(p, order);
    raw.(steps := if p.steps == [] then Absent else raw.steps,
         buttons := if p.steps != [] && p.buttons != [] then Absent else raw.buttons)
  }

  lemma {:induction false} BodyParsed(p: PlayInput, order: seq<string>)
    ensures var raw := Transport(ToPayload(p, order));
            Body(p, order) == if !raw.steps.Truthy() then raw.(steps := Absent)
                              else if raw.buttons.Truthy() then raw.(buttons := Absent) else raw
  {
    assert |ToPayload(p, order).steps.items| == |p.steps|;
    assert |ToPayload(p, order).buttons.items| == |p.buttons|;
    assert ModeName(p.screenshotMode) != "";
  }

  function HeadOf(p: PlayInput): Head
    requires p.untilEvalInterval >= 0
  {
    Head(p.screenshotMode, p.screenshotScale, p.emulationSpeed, p.gapFrames, p.until, p.untilEvalInterval,
         p.disableDefaultHoldAbort, p.ocr, p.hashRegions, p.intent)
  }

  lemma {:induction false} IntentArrives(p: PlayInput, order: seq<string>)
    requires ExtraOk(p)
    ensures ParseIntent(Body(p, order).intent) == Ok(p.intent)
  {
    if p.intent.Some? {
      IntentReads(p.intent.value);
    }
  }

  lemma {:induction false} UntilArrives(p: PlayInput, order: seq<string>)
    requires p.until.Some? ==> UntilOk(p.until.value)
    ensures ParseUntil(Body(p, order).until) == Ok(if p.until.Some? then Until(p.until.value) else NoUntil)
  {
    if p.until.Some? {
      UntilReadsBack(p.until.value);
    }
  }

  lemma {:induction false} NumbersArrive(p: PlayInput, order: seq<string>, sessionSpeed: Json)
    requires HeadOk(p) && ParseSpeed(sessionSpeed, 0).Ok?
    ensures var b := Body(p, order);
            && ParseMode(b.screenshotMode) == Ok(p.screenshotMode)
            && Bounded(b.screenshotScale, 1, 4, 1) == Ok(p.screenshotScale)
            && ParseSpeed(b.emulationSpeed, ParseSpeed(sessionSpeed, 0).value) == Ok(p.emulationSpeed)
            && Bounded(b.gapFrames, 0, MAX_GAP_FRAMES, 0) == Ok(p.gapFrames)
            && InRange(b.untilEvalInterval.Or(JInt(4)), 1, 15) == Ok(p.untilEvalInterval)
  {
    ModeReads(p.screenshotMode);
  }

  lemma {:induction false} HashArrives(p: PlayInput, order: seq<string>)
    requires RegionsOk(p.hashRegions) && Lists(order, p.hashRegions.Keys)
    ensures ParseHashRegions(Body(p, order).hashRegions) == Ok(p.hashRegions)
  {
    HashRegionsReadBack(order, p.hashRegions);
  }

  /** What a payload's pieces read as, its head reads as. */
  lemma {:induction false} HeadFromPieces(b: Payload, h: Head, sessionSpeed: Json)
    requires ParseMode(b.screenshotMode) == Ok(h.mode) && Bounded(b.screenshotScale, 1, 4, 1) == Ok(h.scale)
    requires ParseSpeed(sessionSpeed, 0).Ok?
    requires ParseSpeed(b.emulationSpeed, ParseSpeed(sessionSpeed, 0).value) == Ok(h.speed)
    requires Bounded(b.gapFrames, 0, MAX_GAP_FRAMES, 0) == Ok(h.gap)
    requires ParseUntil(b.until) == Ok(if h.until.Some? then Until(h.until.value) else NoUntil)
    requires InRange(b.untilEvalInterval.Or(JInt(4)), 1, 15) == Ok(h.interval)
    requires ParseHashRegions(b.hashRegions) == Ok(h.hashRegions) && ParseIntent(b.intent) == Ok(h.intent)
    requires b.disableDefaultHoldAbort == JBool(h.disable) && b.ocr == JBool(h.ocr)
    ensures ParseHead(b, sessionSpeed) == Ok(h)
  {
  }

  lemma {:induction false} HeadArrives(p: PlayInput, order: seq<string>, sessionSpeed: Json)
    requires Normalised(p) && Lists(order, p.hashRegions.Keys) && ParseSpeed(sessionSpeed, 0).Ok?
    ensures ParseHead(Body(p, order), sessionSpeed) == Ok(HeadOf(p))
  {
    NumbersArrive(p, order, sessionSpeed);
    IntentArrives(p, order);
    UntilArrives(p, order);
    HashArrives(p, order);
    HeadFromPieces(Body(p, order), HeadOf(p), sessionSpeed);
  }

  lemma {:induction false} MashArrives(p: PlayInput, order: seq<string>)
    requires Normalised(p)
    ensures ParseMash(Body(p, order)) == Ok(MashKeys(p.mashButton, p.mashPressFrames, p.mashReleaseFrames))
  {
    ButtonReads(p.mashButton);
  }

  lemma {:induction false} MacroArrives(p: PlayInput, order: seq<string>)
    ensures ParseMacro(Body(p, order).macro) == Ok(Some(p.macro))
  {
    MacroReads(p.macro);
  }

  lemma {:induction false} StepsArrive(p: PlayInput, order: seq<string>)
    requires StepsOk(p.steps) && p.steps != []
    ensures ParseSteps(Body(p, order).steps, p.gapFrames) == Ok(p.steps)
    ensures !Body(p, order).steps.IsNone() && Body(p, order).maxFrames == JInt(p.maxFrames)
  {
    StepsReadBack(p.steps, p.gapFrames);
    assert Body(p, order).steps == JArr(StepItems(p.steps));
  }

  lemma {:induction false} ScriptArrives(p: PlayInput, order: seq<string>)
    requires ShapeOk(p) && p.steps != []
    ensures var shape := ParseShape(Body(p, order), Some(p.macro), p.holdFrames, p.gapFrames);
            && (shape.Ok? <==> Uncut(p))
            && (shape.Ok? ==> Capped(shape.value) == Shape(Steps, p.steps, [], p.holdFrames, p.maxFrames,
                                                           p.plannedFrames))
  {
    StepsArrive(p, order);
    if p.macro == Buttons {
      SingleStep(p.buttons, p.holdFrames, p.gapFrames, false);
    }
    var b := Body(p, order);
    assert ParseShape(b, Some(p.macro), p.holdFrames, p.gapFrames)
        == ScriptShape(p.steps, p.holdFrames, JInt(p.maxFrames));
  }

  lemma {:induction false} KeysArrive(p: PlayInput, order: seq<string>)
    requires Normalised(p) && p.steps == []
    ensures var shape := ParseShape(Body(p, order), Some(p.macro), p.holdFrames, p.gapFrames);
            && Uncut(p) && shape.Ok?
            && Capped(shape.value) == Shape(p.macro, [], p.buttons, p.holdFrames, p.maxFrames, p.plannedFrames)
  {
    ParseButtonsBack(p.buttons, true);
  }

  /** A script arrives exactly when its frame cap does not cut it; a hold or a mash always does. */
  lemma {:induction false} ShapeArrives(p: PlayInput, order: seq<string>)
    requires Normalised(p)
    ensures var shape := ParseShape(Body(p, order), Some(p.macro), p.holdFrames, p.gapFrames);
            && (shape.Ok? <==> Uncut(p))
            && (shape.Ok? ==> Capped(shape.value) == Shape(Arrived(p).macro, p.steps, Arrived(p).buttons, p.holdFrames,
                                                           p.maxFrames, p.plannedFrames))
  {
    if p.steps != [] {
      ScriptArrives(p, order);
    } else {
      KeysArrive(p, order);
    }
  }

  lemma {:induction false} MediaArrives(p: PlayInput, order: seq<string>)
    requires ExtraOk(p) && p.extra.media.Some?
    ensures var body, m := Body(p, order), p.extra.media.value;
            body.media == JStr(MediaName(m)) && MediaNamed(Canon(MediaName(m))) == m && Strip(MediaName(m)) != ""
  {
    MediaReads(p.extra.media.value);
  }

  lemma {:induction false} PlainArrive(p: PlayInput, order: seq<string>)
    requires Normalised(p)
    ensures var b := Body(p, order);
            && Bounded(b.holdFrames, 1, MAX_HOLD_FRAMES, 1) == Ok(p.holdFrames)
            && (forall speed, planned :: ParseTimeout(b.callTimeoutSeconds, speed, planned) == Ok(p.callTimeoutSeconds))
            && (b.steps.IsNone() <==> p.steps == [])
            && (b.buttons.JArr? && b.buttons.items != [] <==> p.steps == [] && p.buttons != [])
  {
  }

  /** What a payload's pieces read as, all of it reads as. */
  lemma {:induction false} PlayFromPieces(b: Payload, p: PlayInput, sessionSpeed: Json)
    requires Normalised(p) && ParseHead(b, sessionSpeed) == Ok(HeadOf(p)) && ParseMacro(b.macro) == Ok(Some(p.macro))
    requires ParseMash(b) == Ok(MashKeys(p.mashButton, p.mashPressFrames, p.mashReleaseFrames))
    requires Bounded(b.holdFrames, 1, MAX_HOLD_FRAMES, 1) == Ok(p.holdFrames)
    requires forall speed, planned :: ParseTimeout(b.callTimeoutSeconds, speed, planned) == Ok(p.callTimeoutSeconds)
    requires b.steps.IsNone() <==> p.steps == []
    requires b.buttons.JArr? && b.buttons.items != [] <==> p.steps == [] && p.buttons != []
    requires var shape := ParseShape(b, Some(p.macro), p.holdFrames, p.gapFrames);
             && (shape.Ok? <==> Uncut(p))
             && (shape.Ok? ==> Capped(shape.value) == Shape(Arrived(p).macro, p.steps, Arrived(p).buttons, p.holdFrames,
                                                           p.maxFrames, p.plannedFrames))
    ensures var read := ParsePlayInput(b, sessionSpeed);
            (read.Ok? <==> Uncut(p)) && (Uncut(p) ==> read == Ok(Arrived(p).(extra := ParseExtra(b))))
  {
  }

  lemma {:induction false} BodyReads(p: PlayInput, order: seq<string>, sessionSpeed: Json)
    requires Normalised(p) && Lists(order, p.hashRegions.Keys) && ParseSpeed(sessionSpeed, 0).Ok?
    ensures var b := Body(p, order);
            var read := ParsePlayInput(b, sessionSpeed);
            (read.Ok? <==> Uncut(p)) && (Uncut(p) ==> read == Ok(Arrived(p).(extra := ParseExtra(b))))
  {
    HeadArrives(p, order, sessionSpeed);
    MacroArrives(p, order);
    MashArrives(p, order);
    ShapeArrives(p, order);
    PlainArrive(p, order);
    PlayFromPieces(Body(p, order), p, sessionSpeed);
  }

  lemma {:induction false} ExtraArrives(p: PlayInput, order: seq<string>)
    requires ExtraOk(p)
    ensures var b := Body(p, order);
            var extra := ParseExtra(b);
            && extra.intent == None && extra.publicMash == b.publicMash.Truthy() == p.extra.publicMash
            && p.extra.media == if extra.media.None? && b.media.JStr? && Strip(b.media.s) != ""
                                then Some(MediaNamed(Canon(b.media.s))) else extra.media
  {
    if p.extra.media.Some? {
      MediaArrives(p, order);
    }
  }

  /** A normalised request, sent to the instance and read there, is accepted exactly when its frame cap
      does not cut its script, and then arrives as it was, except that a chord has become a script. */
  lemma {:induction false} WireRoundTrip(p: PlayInput, order: seq<string>, sessionSpeed: Json)
    requires Normalised(p) && Lists(order, p.hashRegions.Keys) && ParseSpeed(sessionSpeed, 0).Ok?
    ensures var read := ReadRequest(Transport(ToPayload(p, order)), sessionSpeed);
            (read.Ok? <==> Uncut(p)) && (Uncut(p) ==> read == Ok(Arrived(p)))
  {
    BodyParsed(p, order);
    BodyReads(p, order, sessionSpeed);
    ExtraArrives(p, order);
  }

  /** Every public request that is accepted reaches the instance as the play it stands for, whatever
      screenshots were asked for on top. */
  lemma {:induction false} PublicPlayArrives(raw: PublicPayload, defaultMedia: Media, mode: ShotMode, scale: nat,
                                             order: seq<string>, sessionSpeed: Json)
    requires ParsePlayArgs(raw, defaultMedia).Ok? && !defaultMedia.MediaOther? && 1 <= scale <= 4
    requires ParseSpeed(sessionSpeed, 0).Ok?
    requires Lists(order, PlayInputFromArgs(ParsePlayArgs(raw, defaultMedia).value).value.hashRegions.Keys)
    ensures var p := PlayInputFromArgs(ParsePlayArgs(raw, defaultMedia).value).value.(
                       screenshotMode := mode, screenshotScale := scale);
            ReadRequest(Transport(ToPayload(p, order)), sessionSpeed) == Ok(Arrived(p))
  {
    var args := ParsePlayArgs(raw, defaultMedia).value;
    ArgsMedia(raw, defaultMedia);
    ArgsNormalised(args);
    WireRoundTrip(PlayInputFromArgs(args).value.(screenshotMode := mode, screenshotScale := scale), order,
                  sessionSpeed);
  }

  lemma {:induction false} ArgsMedia(raw: PublicPayload, defaultMedia: Media)
    requires ReadPlayArgs(raw, defaultMedia).Ok? && !defaultMedia.MediaOther?
    ensures !ReadPlayArgs(raw, defaultMedia).value.media.MediaOther?
  {
  }

  /** A wait of a hundred frames, capped at fifty. */
  function CutWait(): Payload {
    ArgsBase(PlayArgs([], 100, 0, false, [], None, Appears, None, MediaImage), Steps).(
      wait := JBool(true), holdFrames := JInt(100), maxFrames := JInt(50))
  }

  lemma {:induction false} CutWaitHead()
    ensures var h := ParseHead(CutWait(), Absent);
            h.Ok? && h.value.gap == 0 && h.value.hashRegions == DEFAULT_HASH_REGIONS
  {
    ModeReads(Final);
  }

  lemma {:induction false} CutWaitShape()
    ensures ParseShape(CutWait(), None, 100, 0) == Ok(Shape(Steps, [InputStep([], 100, 0, true)], [], 100, 50, 100))
  {
  }

  lemma {:induction false} CutWaitParsed()
    ensures var p := ParsePlayInput(CutWait(), Absent);
            && p.Ok? && p.value.macro == Steps && p.value.steps == [InputStep([], 100, 0, true)]
            && p.value.maxFrames == 50 && p.value.hashRegions == DEFAULT_HASH_REGIONS
  {
    CutWaitHead();
    CutWaitShape();
    assert ParseMash(CutWait()) == Ok(MashKeys(A, 4, 4)) && ParseMacro(CutWait().macro) == Ok(None);
  }

  /** Not every request the parser accepts could be sent on: a wait cut short by its own frame cap is a
      script that its cap cuts. */
  lemma {:induction false} CutWaitIsRejected(order: seq<string>)
    requires Lists(order, DEFAULT_HASH_REGIONS.Keys)
    ensures var p := ParsePlayInput(CutWait(), Absent);
            p.Ok? && ReadRequest(Transport(ToPayload(p.value, order)), Absent).Err?
  {
    CutWaitParsed();
    SingleStep([], 100, 0, true);
    ParseNormalises(CutWait(), Absent);
    WireRoundTrip(ParsePlayInput(CutWait(), Absent).value, order, Absent);
  }

  // ---------------------------------------------------------------------------------------------
  // The same play

  lemma {:induction false} SameRun(see: Vision, p: PlayInput, base: Frame, what: Streak, seen: seq<Frame>, from: nat)
    ensures Watch(see, Arrived(p), base).Run(what, seen, from) == Watch(see, p, base).Run(what, seen, from)
    decreases |seen|
  {
    if |seen| > from {
      SameRun(see, p, base, what, seen[..|seen| - 1], from);
    }
  }

  /** The request that arrives drives the engine and its monitor exactly as the one sent would. */
  lemma {:induction false} SameCall(p: PlayInput, plan: Option<Wants>, decide: Option<Decide>, past: seq<Chord>)
    requires p.macro == Mash ==> p.mashPressFrames + p.mashReleaseFrames > 0
    ensures Setup(Arrived(p), plan, decide, past) == Setup(p, plan, decide, past)
    ensures PhasesOf(Arrived(p), Budget(Arrived(p))) == PhasesOf(p, Budget(p)) && Budget(Arrived(p)) == Budget(p)
    ensures Arrived(p).callTimeoutSeconds == p.callTimeoutSeconds && Arrived(p).intent == p.intent
  {
  }

  lemma {:induction false} SameCounting(see: Vision, p: PlayInput, base: Frame)
    ensures var v, w := Watch(see, Arrived(p), base), Watch(see, p, base);
            v.AbortCounts() == w.AbortCounts() && v.Weight() == w.Weight() && v.Target() == w.Target()
  {
  }

  lemma {:induction false} SameCaller(see: Vision, p: PlayInput, base: Frame, seen: seq<Frame>)
    requires seen != []
    ensures Watch(see, Arrived(p), base).CallerSays(seen) == Watch(see, p, base).CallerSays(seen)
  {
    SameCounting(see, p, base);
    SameRun(see, p, base, StillStreak, seen, 1);
    SameRun(see, p, base, StillStreak, seen, TURN_GRACE_EVALS);
    SameRun(see, p, base, SettledStreak, seen, 1);
    SameRun(see, p, base, OutdoorsStreak, seen, 1);
    var v, w := Watch(see, Arrived(p), base), Watch(see, p, base);
    if p.until.Some? {
      assert v.CallerBlocked(seen) == w.CallerBlocked(seen);
      assert v.WasCovered(seen) == w.WasCovered(seen);
    }
  }

  lemma {:induction false} SameAbort(see: Vision, p: PlayInput, base: Frame, seen: seq<Frame>)
    requires seen != []
    ensures Watch(see, Arrived(p), base).AbortSays(seen) == Watch(see, p, base).AbortSays(seen)
  {
    SameCounting(see, p, base);
    SameRun(see, p, base, StillStreak, seen, TURN_GRACE_EVALS);
    var f := seen[|seen| - 1];
    var v, w := Watch(see, Arrived(p), base), Watch(see, p, base);
    assert v.SceneAbort(f) == w.SceneAbort(f);
  }

  lemma {:induction false} SameVerdict(see: Vision, p: PlayInput, base: Frame, seen: seq<Frame>)
    requires seen != []
    ensures Watch(see, Arrived(p), base).Verdict(seen) == Watch(see, p, base).Verdict(seen)
  {
    SameCaller(see, p, base, seen);
    SameAbort(see, p, base, seen);
  }
}
