/** Parsing a play request, public or internal, into its normalised form. */
module PlaySchema {
  import opened PlayTypes
  import opened PlayDefaults
  import opened Text
  import opened Phases

  /** JSON as the parser sees it; `Absent` stands for a key that is not there. Objects keep the order
      of their keys. */
  datatype Json =
    | Absent
    | JNull
    | JBool(b: bool)
    | JInt(i: int)
    | JReal(r: real)
    | JStr(s: string)
    | JArr(items: seq<Json>)
    | JObj(keys: seq<string>, fields: map<string, Json>)
  {
    predicate IsNone() { Absent? || JNull? }

    predicate Truthy() {
      match this
      case Absent => false
      case JNull => false
      case JBool(b) => b
      case JInt(i) => i != 0
      case JReal(r) => r != 0.0
      case JStr(s) => s != ""
      case JArr(items) => items != []
      case JObj(keys, _) => keys != []
    }

    function Get(key: string): Json
      requires JObj?
    {
      if key in fields then fields[key] else Absent
    }

    function Or(default: Json): Json { if Absent? then default else this }
  }

  // ---------------------------------------------------------------------------------------------
  // Vocabularies

  function ButtonName(b: Button): string {
    match b
    case A => "a"
    case B => "b"
    case Start => "start"
    case Select => "select"
    case Up => "up"
    case Down => "down"
    case Left => "left"
    case Right => "right"
  }

  function ButtonNamed(s: string): Option<Button> {
    if s == "a" then Some(A) else if s == "b" then Some(B) else if s == "start" then Some(Start)
    else if s == "select" then Some(Select) else if s == "up" then Some(Up) else if s == "down" then Some(Down)
    else if s == "left" then Some(Left) else if s == "right" then Some(Right) else None
  }

  function ModeName(m: ShotMode): string {
    match m
    case Final => "final"
    case All => "all"
    case InterruptAndFinal => "interrupt_and_final"
    case Keyframes => "keyframes"
  }

  function ModeNamed(s: string): Option<ShotMode> {
    if s == "final" then Some(Final) else if s == "all" then Some(All)
    else if s == "interrupt_and_final" then Some(InterruptAndFinal)
    else if s == "keyframes" then Some(Keyframes) else None
  }

  function MacroName(m: Macro): string {
    match m
    case Hold => "hold"
    case Mash => "mash"
    case Steps => "steps"
    case Buttons => "buttons"
  }

  function MacroNamed(s: string): Option<Macro> {
    if s == "hold" then Some(Hold) else if s == "mash" then Some(Mash)
    else if s == "steps" then Some(Steps) else if s == "buttons" then Some(Buttons) else None
  }

  function OnName(on: UntilOn): string {
    match on
    case DeltaAbove => "pixel_delta_above"
    case DeltaBelow => "pixel_delta_below"
    case Stable => "stable"
    case HashEq => "region_hash_eq"
    case HashNeq => "region_hash_neq"
    case Classifier => "classifier"
    case LumaJump => "luma_jump"
    case Blocked => "blocked"
    case Overworld => "overworld"
  }

  function OnNamed(s: string): Option<UntilOn> {
    if s == "pixel_delta_above" then Some(DeltaAbove) else if s == "pixel_delta_below" then Some(DeltaBelow)
    else if s == "stable" then Some(Stable) else if s == "region_hash_eq" then Some(HashEq)
    else if s == "region_hash_neq" then Some(HashNeq) else if s == "classifier" then Some(Classifier)
    else if s == "luma_jump" then Some(LumaJump) else if s == "blocked" then Some(Blocked)
    else if s == "overworld" then Some(Overworld) else None
  }

  function ClassifierWord(c: ClassifierName): string {
    match c
    case TextboxLikely => "textbox_likely"
    case BattleLikely => "battle_likely"
    case StartMenuLikely => "start_menu_likely"
  }

  function ClassifierNamed(s: string): Option<ClassifierName> {
    if s == "textbox_likely" then Some(TextboxLikely) else if s == "battle_likely" then Some(BattleLikely)
    else if s == "start_menu_likely" then Some(StartMenuLikely) else None
  }

  function PolarityName(p: Polarity): string { if p == Appears then "appears" else "disappears" }

  function PolarityNamed(s: string): Option<Polarity> {
    if s == "appears" then Some(Appears) else if s == "disappears" then Some(Disappears) else None
  }

  function IntentName(i: Intent): string {
    match i
    case AdvanceText => "advance_text"
    case RunAway => "run_away"
    case BattleTurn => "battle_turn"
    case BattleUntilOverworld => "battle_until_overworld"
    case SkipIntro => "skip_intro"
    case EnterDoor => "enter_door"
  }

  function IntentNamed(s: string): Option<Intent> {
    if s == "advance_text" then Some(AdvanceText) else if s == "run_away" then Some(RunAway)
    else if s == "battle_turn" then Some(BattleTurn)
    else if s == "battle_until_overworld" then Some(BattleUntilOverworld)
    else if s == "skip_intro" then Some(SkipIntro) else if s == "enter_door" then Some(EnterDoor) else None
  }

  function MediaName(m: Media): string {
    match m
    case MediaOff => "off"
    case MediaImage => "image"
    case MediaVideo => "video"
    case MediaOther(word) => word
  }

  function MediaNamed(s: string): Media {
    if s == "off" then MediaOff else if s == "image" then MediaImage
    else if s == "video" then MediaVideo else MediaOther(s)
  }

  predicate Plain(s: string) { forall i :: 0 <= i < |s| ==> 'a' <= s[i] <= 'z' || s[i] == '_' }

  /** A word of small letters is its own canonical form. */
  lemma {:induction false} PlainIsCanon(s: string)
    requires Plain(s)
    ensures Canon(s) == s
  {
    CanonFixed(s);
  }

  lemma {:induction false} ButtonIsPlain(b: Button)
    ensures Plain(ButtonName(b))
  {
  }

  lemma {:induction false} ButtonReads(b: Button)
    ensures ButtonNamed(Canon(ButtonName(b))) == Some(b)
  {
    ButtonIsPlain(b);
    PlainIsCanon(ButtonName(b));
  }

  lemma {:induction false} ModeIsPlain(m: ShotMode)
    ensures Plain(ModeName(m))
  {
  }

  lemma {:induction false} ModeReads(m: ShotMode)
    ensures ModeNamed(Canon(ModeName(m))) == Some(m)
  {
    ModeIsPlain(m);
    PlainIsCanon(ModeName(m));
  }

  lemma {:induction false} MacroIsPlain(m: Macro)
    ensures Plain(MacroName(m))
  {
  }

  lemma {:induction false} MacroReads(m: Macro)
    ensures MacroNamed(Canon(MacroName(m))) == Some(m)
  {
    MacroIsPlain(m);
    PlainIsCanon(MacroName(m));
  }

  lemma {:induction false} OnIsPlain(on: UntilOn)
    ensures Plain(OnName(on))
  {
  }

  lemma {:induction false} OnReads(on: UntilOn)
    ensures Canon(OnName(on)) != "none" && OnNamed(Canon(OnName(on))) == Some(on)
  {
    OnIsPlain(on);
    PlainIsCanon(OnName(on));
  }

  lemma {:induction false} ClassifierIsPlain(c: ClassifierName)
    ensures Plain(ClassifierWord(c))
  {
  }

  lemma {:induction false} ClassifierReads(c: ClassifierName)
    ensures ClassifierNamed(Canon(ClassifierWord(c))) == Some(c)
  {
    ClassifierIsPlain(c);
    PlainIsCanon(ClassifierWord(c));
  }

  lemma {:induction false} PolarityIsPlain(p: Polarity)
    ensures Plain(PolarityName(p))
  {
  }

  lemma {:induction false} PolarityReads(p: Polarity)
    ensures PolarityNamed(Canon(PolarityName(p))) == Some(p)
  {
    PolarityIsPlain(p);
    PlainIsCanon(PolarityName(p));
  }

  lemma {:induction false} IntentIsPlain(i: Intent)
    ensures Plain(IntentName(i))
  {
  }

  lemma {:induction false} IntentReads(i: Intent)
    ensures Canon(IntentName(i)) != "" && IntentNamed(Canon(IntentName(i))) == Some(i)
  {
    IntentIsPlain(i);
    PlainIsCanon(IntentName(i));
  }

  // ---------------------------------------------------------------------------------------------
  // Parsing

  /** A request as it arrives: the values of the keys the parser reads. */
  datatype Payload = Payload(
    macro: Json, steps: Json, buttons: Json, wait: Json, holdFrames: Json, mashButton: Json, mashPressFrames: Json,
    mashReleaseFrames: Json, maxFrames: Json, gapFrames: Json, emulationSpeed: Json, screenshotMode: Json,
    screenshotScale: Json, until: Json, untilEvalInterval: Json, disableDefaultHoldAbort: Json, hashRegions: Json,
    ocr: Json, callTimeoutSeconds: Json, intent: Json, media: Json, publicMash: Json)

  function Bounded(j: Json, lo: nat, hi: nat, default: nat): Result<nat> {
    if j.IsNone() then Ok(default) else InRange(j, lo, hi)
  }

  function InRange(j: Json, lo: nat, hi: nat): Result<nat> {
    if j.JInt? && lo <= j.i <= hi then Ok(j.i) else Err("integer out of range")
  }

  /** A choice from a fixed list of words, case and outer blanks ignored. */
  function Choice<T>(j: Json, named: string -> Option<T>): Result<T> {
    if j.JStr? && named(Canon(j.s)).Some? then Ok(named(Canon(j.s)).value) else Err("unknown word")
  }

  function ParseButton(j: Json): Result<Button> { Choice(j, ButtonNamed) }

  /** Names in order, each only where it first occurs. */
  function ButtonList(items: seq<Json>): Result<seq<Button>> {
    if items == [] then Ok([])
    else
      var front :- ButtonList(items[..|items| - 1]);
      var b :- ParseButton(items[|items| - 1]);
      Ok(if b in front then front else front + [b])
  }

  function ParseButtons(j: Json, allowEmpty: bool): Result<seq<Button>> {
    if j.IsNone() || j == JArr([]) then (if allowEmpty then Ok([]) else Err("at least one button is required"))
    else if !j.JArr? then Err("buttons must be a list")
    else ButtonList(j.items)
  }

  predicate IsSpeed(n: int) { n == 0 || n == 1 || n == 2 || n == 4 || n == 8 }

  function ParseSpeed(j: Json, default: nat): Result<nat> {
    if j.IsNone() then Ok(default)
    else
      var n :- SpeedNumber(j);
      if IsSpeed(n) then Ok(n) else Err("emulation_speed")
  }

  function SpeedNumber(j: Json): Result<int> {
    match j
    case JInt(i) => Ok(i)
    case JStr(s) =>
      var t := Canon(s);
      if t == "uncapped" || t == "unlimited" || t == "max" then Ok(0)
      else if IsDigits(t) then Ok(Digits(t))
      else if t != "" && t[0] == '-' && IsDigits(t[1..]) then
        var n: int := Digits(t[1..]);
        Ok(0 - n)
      else Err("emulation_speed")
    case _ => Err("emulation_speed")
  }

  predicate IsDigits(s: string) { s != "" && forall i :: 0 <= i < |s| ==> '0' <= s[i] <= '9' }

  function Digits(s: string): nat
    requires forall i :: 0 <= i < |s| ==> '0' <= s[i] <= '9'
  {
    if s == "" then 0 else 10 * Digits(s[..|s| - 1]) + (s[|s| - 1] as int - '0' as int)
  }

  function ParseMode(j: Json): Result<ShotMode> { if j.IsNone() then Ok(Final) else Choice(j, ModeNamed) }

  function ToInt(j: Json): Result<int> {
    match j
    case JInt(i) => Ok(i)
    case JBool(b) => Ok(if b then 1 else 0)
    case JReal(r) => Ok(if r >= 0.0 then r.Floor else -((-r).Floor))
    case _ => Err("region")
  }

  function ParseRegion(j: Json): Result<Region> {
    if j.IsNone() then Ok(DEFAULT_REGION)
    else if !j.JArr? || |j.items| != 4 then Err("region")
    else
      var x :- ToInt(j.items[0]);
      var y :- ToInt(j.items[1]);
      var w :- ToInt(j.items[2]);
      var h :- ToInt(j.items[3]);
      if OnScreen(Region(x, y, w, h)) then Ok(Region(x, y, w, h)) else Err("region")
  }

  predicate OnScreen(r: Region) { r.w > 0 && r.h > 0 && r.x >= 0 && r.y >= 0 && r.x + r.w <= 160 && r.y + r.h <= 144 }

  datatype ParsedUntil = NoUntil | UntilNone | Until(spec: UntilSpec)

  function ParseUntil(j: Json): Result<ParsedUntil> {
    if j.IsNone() then Ok(NoUntil)
    else if !j.JObj? then Err("until must be an object")
    else
      var on := j.Get("on").Or(JStr("pixel_delta_above"));
      if on.JStr? && Canon(on.s) == "none" then Ok(UntilNone)
      else
        var name :- Choice(on, OnNamed);
        var spec :- ParseUntilSpec(j, name);
        Ok(Until(spec))
  }

  function ParseUntilSpec(j: Json, on: UntilOn): Result<UntilSpec>
    requires j.JObj?
  {
    var region :- ParseRegion(j.Get("region"));
    var threshold :- ParseThreshold(j.Get("threshold").Or(JReal(0.08)));
    var stableFrames :- InRange(j.Get("stable_frames").Or(JInt(12)), 1, MAX_FRAMES_PER_CALL);
    var hash :- ParseHash(j.Get("hash"));
    var classifier :- ParseClassifier(j.Get("classifier"));
    var polarity :- Choice(j.Get("classifier_polarity").Or(JStr("appears")), PolarityNamed);
    if (on == HashEq || on == HashNeq) && hash.None? then Err("until.hash is required")
    else if on == Classifier && classifier.None? then Err("until.classifier is required")
    else Ok(UntilSpec(region, on, threshold, stableFrames, hash, classifier, polarity))
  }

  function ParseThreshold(j: Json): Result<real> {
    var value := if j.JReal? then j.r else if j.JInt? then j.i as real else -1.0;
    if 0.0 <= value <= 1.0 then Ok(value) else Err("until.threshold")
  }

  function ParseHash(j: Json): Result<Option<string>> {
    if j.IsNone() then Ok(None)
    else if j.JStr? && Canon(j.s) != "" then Ok(Some(Canon(j.s)))
    else Err("until.hash")
  }

  function ParseClassifier(j: Json): Result<Option<ClassifierName>> {
    if j.IsNone() then Ok(None)
    else
      var name :- Choice(j, ClassifierNamed);
      Ok(Some(name))
  }

  function ParseIntent(j: Json): Result<Option<Intent>> {
    if j.IsNone() || (j.JStr? && Canon(j.s) == "") then Ok(None)
    else
      var intent :- Choice(j, IntentNamed);
      Ok(Some(intent))
  }

  function Strip(s: string): string { RStrip(LStrip(s)) }

  /** The built-in regions, with those given added or put in their place. */
  function RegionTable(keys: seq<string>, fields: map<string, Json>): Result<map<string, Region>> {
    if keys == [] then Ok(DEFAULT_HASH_REGIONS)
    else
      var last := keys[|keys| - 1];
      var front :- RegionTable(keys[..|keys| - 1], fields);
      if Strip(last) == "" then Err("hash_regions keys")
      else
        var region :- ParseRegion(if last in fields then fields[last] else Absent);
        Ok(front[Strip(last) := region])
  }

  function ParseHashRegions(j: Json): Result<map<string, Region>> {
    if j.IsNone() then Ok(DEFAULT_HASH_REGIONS)
    else if !j.JObj? then Err("hash_regions must be an object")
    else RegionTable(j.keys, j.fields)
  }

  function ParseStep(j: Json, defaultGap: nat): Result<InputStep> {
    if !j.JObj? then Err("each step must be an object")
    else
      var wait := j.Get("wait").Truthy();
      var buttons :- ParseButtons(j.Get("buttons"), true);
      if j.Get("buttons").IsNone() && !wait then Err("at least one button is required")
      else
        var hold :- Bounded(j.Get("hold_frames"), 1, MAX_HOLD_FRAMES, 1);
        var gap :- Bounded(j.Get("gap_frames"), 0, MAX_GAP_FRAMES, defaultGap);
        Ok(InputStep(buttons, hold, gap, wait || buttons == []))
  }

  function StepList(items: seq<Json>, defaultGap: nat): Result<seq<InputStep>> {
    if items == [] then Ok([])
    else
      var front :- StepList(items[..|items| - 1], defaultGap);
      var step :- ParseStep(items[|items| - 1], defaultGap);
      Ok(front + [step])
  }

  lemma {:induction false} StepListSnoc(items: seq<Json>, j: Json, gap: nat, steps: seq<InputStep>, step: InputStep)
    requires StepList(items, gap) == Ok(steps) && ParseStep(j, gap) == Ok(step)
    ensures StepList(items + [j], gap) == Ok(steps + [step])
  {
    assert (items + [j])[..|items|] == items;
  }

  function ParseSteps(j: Json, defaultGap: nat): Result<seq<InputStep>> {
    if !j.JArr? then Err("steps must be a list")
    else if j.items == [] || |j.items| > MAX_INPUT_STEPS then Err("steps count")
    else StepList(j.items, defaultGap)
  }

  /** The part of a request that says what to look at and how fast to go. */
  datatype Head = Head(mode: ShotMode, scale: nat, speed: nat, gap: nat, until: Option<UntilSpec>, interval: nat,
                       disable: bool, ocr: bool, hashRegions: map<string, Region>, intent: Option<Intent>)

  function ParseHead(p: Payload, sessionSpeed: Json): Result<Head> {
    var mode :- ParseMode(p.screenshotMode);
    var scale :- Bounded(p.screenshotScale, 1, 4, 1);
    var defaultSpeed :- ParseSpeed(sessionSpeed, 0);
    var speed :- ParseSpeed(p.emulationSpeed, defaultSpeed);
    var gap :- Bounded(p.gapFrames, 0, MAX_GAP_FRAMES, 0);
    var until :- ParseUntil(p.until);
    var interval :- InRange(p.untilEvalInterval.Or(JInt(4)), 1, 15);
    var hashRegions :- ParseHashRegions(p.hashRegions);
    var intent :- ParseIntent(p.intent);
    Ok(Head(mode, scale, speed, gap, if until.Until? then Some(until.spec) else None, interval,
            p.disableDefaultHoldAbort.Truthy() || until.UntilNone?, p.ocr.Truthy(), hashRegions, intent))
  }

  datatype MashKeys = MashKeys(button: Button, press: nat, release: nat)

  function ParseMash(p: Payload): Result<MashKeys> {
    var button :- if p.mashButton.IsNone() then Ok(A) else ParseButton(p.mashButton);
    var press :- InRange(p.mashPressFrames.Or(JInt(4)), 1, MAX_HOLD_FRAMES);
    var release :- InRange(p.mashReleaseFrames.Or(JInt(4)), 1, MAX_HOLD_FRAMES);
    Ok(MashKeys(button, press, release))
  }

  function ParseMacro(j: Json): Result<Option<Macro>> {
    if j.IsNone() then Ok(None)
    else
      var macro :- Choice(j, MacroNamed);
      Ok(Some(macro))
  }

  /** What to press, and for how long. */
  datatype Shape = Shape(macro: Macro, steps: seq<InputStep>, buttons: seq<Button>, holdFrames: nat, maxFrames: nat,
                         planned: nat)

  function ScriptShape(steps: seq<InputStep>, holdFrames: nat, maxFrames: Json): Result<Shape> {
    var planned := ScriptFrames(steps);
    if planned > MAX_FRAMES_PER_CALL then Err("too many frames")
    else
      var most :- Bounded(maxFrames, 1, MAX_FRAMES_PER_CALL, planned);
      if most < planned then Err("max_frames is smaller than the script")
      else Ok(Shape(Steps, steps, [], holdFrames, most, planned))
  }

  /** A chord or a wait of one step; a smaller frame cap is allowed here. */
  function SingleShape(macro: Macro, buttons: seq<Button>, holdFrames: nat, gap: nat, maxFrames: Json): Result<Shape> {
    var planned := holdFrames + gap;
    if planned > MAX_FRAMES_PER_CALL then Err("too many frames")
    else
      var most :- Bounded(maxFrames, 1, MAX_FRAMES_PER_CALL, planned);
      Ok(Shape(macro, [InputStep(buttons, holdFrames, gap, macro == Steps)], buttons, holdFrames, most, planned))
  }

  function ParseShape(p: Payload, macro: Option<Macro>, holdFrames: nat, gap: nat): Result<Shape> {
    var hasButtons := p.buttons.JArr? && p.buttons.items != [];
    if !p.steps.IsNone() then
      var steps :- ParseSteps(p.steps, gap);
      ScriptShape(steps, holdFrames, p.maxFrames)
    else if macro == Some(Mash) then
      var most :- Bounded(p.maxFrames, 1, MAX_FRAMES_PER_CALL, MAX_FRAMES_PER_CALL);
      Ok(Shape(Mash, [], [], most, most, most))
    else if macro == Some(Hold) then
      var most :- Bounded(p.maxFrames, 1, MAX_FRAMES_PER_CALL,
                          if p.holdFrames.IsNone() then MAX_FRAMES_PER_CALL else holdFrames);
      var buttons :- ParseButtons(p.buttons, true);
      Ok(Shape(Hold, [], buttons, most, most, most))
    else if hasButtons || macro == Some(Buttons) then
      var buttons :- ParseButtons(p.buttons, false);
      SingleShape(Buttons, buttons, holdFrames, gap, p.maxFrames)
    else if p.wait.Truthy() then SingleShape(Steps, [], holdFrames, gap, p.maxFrames)
    else Err("at least one button is required")
  }

  /** The caller's wall-clock limit, or what the planned frames call for. */
  function ParseTimeout(j: Json, speed: nat, planned: nat): Result<real> {
    if j.IsNone() then Ok(TimeoutFor(speed, planned))
    else
      var value := if j.JReal? then j.r else if j.JInt? then j.i as real else 0.0;
      if 0.0 < value <= 180.0 then Ok(value) else Err("call_timeout_seconds")
  }

  function ParseExtra(p: Payload): Extra {
    var media :=
      if p.media.JStr? && !MediaNamed(Canon(p.media.s)).MediaOther? then Some(MediaNamed(Canon(p.media.s))) else None;
    Extra(media, p.publicMash.Truthy(), None)
  }

  function Assemble(h: Head, k: MashKeys, b: Shape, timeout: real, extra: Extra): PlayInput {
    PlayInput(b.macro, b.steps, b.buttons, b.holdFrames, k.button, k.press, k.release, b.maxFrames, h.gap, h.speed,
              h.mode, h.scale, h.until, h.interval, h.disable, b.macro == Hold && !h.disable, h.hashRegions, h.ocr,
              timeout, Min(b.planned, b.maxFrames), h.intent, extra)
  }

  function ParsePlayInput(p: Payload, sessionSpeed: Json): Result<PlayInput> {
    var head :- ParseHead(p, sessionSpeed);
    var macro :- ParseMacro(p.macro);
    var hasButtons := p.buttons.JArr? && p.buttons.items != [];
    var hasSteps := p.steps.JArr? && p.steps.items != [];
    if (!p.steps.IsNone() && hasButtons) || (hasSteps && (macro == Some(Hold) || macro == Some(Mash))) then
      Err("provide either top-level buttons or steps, not both")
    else
      var keys :- ParseMash(p);
      var holdFrames :- Bounded(p.holdFrames, 1, MAX_HOLD_FRAMES, 1);
      var shape :- ParseShape(p, macro, holdFrames, head.gap);
      var timeout :- ParseTimeout(p.callTimeoutSeconds, head.speed, Min(shape.planned, shape.maxFrames));
      Ok(Assemble(head, keys, shape, timeout, ParseExtra(p)))
  }

  // ---------------------------------------------------------------------------------------------
  // Writing what the parser reads

  function RegionJson(r: Region): Json { JArr([JInt(r.x), JInt(r.y), JInt(r.w), JInt(r.h)]) }

  function ButtonsJson(buttons: seq<Button>): Json {
    JArr(seq(|buttons|, i requires 0 <= i < |buttons| => JStr(ButtonName(buttons[i]))))
  }

  function StepJson(step: InputStep): Json {
    JObj(["buttons", "hold_frames", "gap_frames", "wait"],
         map["buttons" := ButtonsJson(step.buttons), "hold_frames" := JInt(step.holdFrames),
             "gap_frames" := JInt(step.gapFrames), "wait" := JBool(step.wait)])
  }

  function StepItems(steps: seq<InputStep>): seq<Json> {
    seq(|steps|, i requires 0 <= i < |steps| => StepJson(steps[i]))
  }

  // ---------------------------------------------------------------------------------------------
  // Normalised requests

  predicate Distinct(buttons: seq<Button>) { forall i, j :: 0 <= i < j < |buttons| ==> buttons[i] != buttons[j] }

  predicate StepOk(step: InputStep) {
    && Distinct(step.buttons) && 1 <= step.holdFrames <= MAX_HOLD_FRAMES && step.gapFrames <= MAX_GAP_FRAMES
    && (step.buttons == [] ==> step.wait)
  }

  predicate StepsOk(steps: seq<InputStep>) {
    |steps| <= MAX_INPUT_STEPS && forall i :: 0 <= i < |steps| ==> StepOk(steps[i])
  }

  predicate UntilOk(u: UntilSpec) {
    && OnScreen(u.region) && 0.0 <= u.threshold <= 1.0 && 1 <= u.stableFrames <= MAX_FRAMES_PER_CALL
    && (u.hash.Some? ==> u.hash.value != "" && Canon(u.hash.value) == u.hash.value)
    && (u.on == HashEq || u.on == HashNeq ==> u.hash.Some?)
    && (u.on == Classifier ==> u.classifier.Some?)
  }

  predicate RegionsOk(regions: map<string, Region>) {
    && DEFAULT_HASH_REGIONS.Keys <= regions.Keys
    && forall k :: k in regions ==> k != "" && Strip(k) == k && OnScreen(regions[k])
  }

  predicate HeadOk(p: PlayInput) {
    && 1 <= p.screenshotScale <= 4 && IsSpeed(p.emulationSpeed) && p.gapFrames <= MAX_GAP_FRAMES
    && 1 <= p.untilEvalInterval <= 15 && 0.0 < p.callTimeoutSeconds <= 180.0
    && 1 <= p.mashPressFrames <= MAX_HOLD_FRAMES && 1 <= p.mashReleaseFrames <= MAX_HOLD_FRAMES
    && (p.until.Some? ==> UntilOk(p.until.value)) && RegionsOk(p.hashRegions)
    && (p.applyDefaultHoldAbort <==> p.macro == Hold && !p.disableDefaultHoldAbort)
  }

  predicate ShapeOk(p: PlayInput) {
    ShapeFits(Shape(p.macro, p.steps, p.buttons, p.holdFrames, p.maxFrames, p.plannedFrames), p.gapFrames)
  }

  predicate ShapeFits(b: Shape, gap: nat) {
    && 1 <= b.holdFrames <= MAX_HOLD_FRAMES && 1 <= b.maxFrames <= MAX_FRAMES_PER_CALL
    && StepsOk(b.steps) && Distinct(b.buttons)
    && match b.macro
       case Mash => b.steps == [] && b.buttons == [] && b.holdFrames == b.maxFrames == b.planned
       case Hold => b.steps == [] && b.holdFrames == b.maxFrames == b.planned
       case Steps =>
         && b.steps != [] && b.buttons == [] && ScriptFrames(b.steps) <= MAX_FRAMES_PER_CALL
         && b.planned == Min(ScriptFrames(b.steps), b.maxFrames)
       case Buttons =>
         && b.buttons != [] && b.steps == [InputStep(b.buttons, b.holdFrames, gap, false)]
         && b.holdFrames + gap <= MAX_FRAMES_PER_CALL
         && b.planned == Min(b.holdFrames + gap, b.maxFrames)
  }

  predicate ExtraOk(p: PlayInput) {
    && (p.extra.intent.Some? ==> p.extra.intent == p.intent)
    && (p.extra.media.Some? ==> WordOk(p.extra.media.value))
  }

  /** An unknown media word is kept in canonical form. */
  predicate WordOk(m: Media) {
    m.MediaOther? ==> Canon(m.word) == m.word && m.word != "" && MediaNamed(m.word).MediaOther?
  }

  lemma {:induction false} MediaReads(m: Media)
    requires WordOk(m)
    ensures MediaNamed(Canon(MediaName(m))) == m && Strip(MediaName(m)) != ""
  {
    if !m.MediaOther? {
      PlainIsCanon(MediaName(m));
    }
  }

  /** What the parser guarantees of every request it accepts. */
  predicate Normalised(p: PlayInput) { HeadOk(p) && ShapeOk(p) && ExtraOk(p) }

  /** A script is not cut short by its frame cap. */
  predicate Uncut(p: PlayInput) { p.macro == Hold || p.macro == Mash || ScriptFrames(p.steps) <= p.maxFrames }

  // ---------------------------------------------------------------------------------------------
  // The parser only lets normalised requests through

  lemma {:induction false} ButtonListDistinct(items: seq<Json>)
    requires ButtonList(items).Ok?
    ensures Distinct(ButtonList(items).value)
  {
    if items != [] {
      ButtonListDistinct(items[..|items| - 1]);
    }
  }

  lemma {:induction false} ParseButtonsOk(j: Json, allowEmpty: bool)
    requires ParseButtons(j, allowEmpty).Ok?
    ensures Distinct(ParseButtons(j, allowEmpty).value)
    ensures !allowEmpty ==> ParseButtons(j, allowEmpty).value != []
  {
    if j.JArr? && j.items != [] {
      ButtonListDistinct(j.items);
    }
  }

  lemma {:induction false} ParseStepOk(j: Json, gap: nat)
    requires ParseStep(j, gap).Ok? && gap <= MAX_GAP_FRAMES
    ensures StepOk(ParseStep(j, gap).value)
  {
    ParseButtonsOk(j.Get("buttons"), true);
  }

  lemma {:induction false} StepListOk(items: seq<Json>, gap: nat)
    requires StepList(items, gap).Ok? && gap <= MAX_GAP_FRAMES
    ensures var steps := StepList(items, gap).value;
            |steps| == |items| && forall i :: 0 <= i < |steps| ==> StepOk(steps[i])
  {
    if items != [] {
      StepListOk(items[..|items| - 1], gap);
      ParseStepOk(items[|items| - 1], gap);
    }
  }

  lemma {:induction false} StripTwice(s: string)
    ensures Strip(Strip(s)) == Strip(s)
  {
    var l := LStrip(s);
    LStripEnds(s);
    RStripEnds(l);
    var r := RStrip(l);
    if r != "" {
      assert r[0] == l[0];
    }
  }

  lemma {:induction false} RegionTableOk(keys: seq<string>, fields: map<string, Json>)
    requires RegionTable(keys, fields).Ok?
    ensures RegionsOk(RegionTable(keys, fields).value)
  {
    if keys == [] {
      assert forall k :: k in DEFAULT_HASH_REGIONS ==> k != "" && Strip(k) == k && OnScreen(DEFAULT_HASH_REGIONS[k]);
    } else {
      RegionTableOk(keys[..|keys| - 1], fields);
      StripTwice(keys[|keys| - 1]);
    }
  }

  lemma {:induction false} ParseHashOk(j: Json)
    requires ParseHash(j).Ok? && ParseHash(j).value.Some?
    ensures var h := ParseHash(j).value.value; h != "" && Canon(h) == h
  {
    CanonIdempotent(j.s);
  }

  lemma {:induction false} ParseRegionOk(j: Json)
    requires ParseRegion(j).Ok?
    ensures OnScreen(ParseRegion(j).value)
  {
  }

  lemma {:induction false} ParseUntilSpecOk(j: Json, on: UntilOn)
    requires j.JObj? && ParseUntilSpec(j, on).Ok?
    ensures UntilOk(ParseUntilSpec(j, on).value)
  {
    ParseRegionOk(j.Get("region"));
    if ParseHash(j.Get("hash")).value.Some? {
      ParseHashOk(j.Get("hash"));
    }
  }

  lemma {:induction false} ParseUntilOk(j: Json)
    requires ParseUntil(j).Ok? && ParseUntil(j).value.Until?
    ensures UntilOk(ParseUntil(j).value.spec)
  {
    ParseUntilSpecOk(j, Choice(j.Get("on").Or(JStr("pixel_delta_above")), OnNamed).value);
  }

  lemma {:induction false} ParseHashRegionsOk(j: Json)
    requires ParseHashRegions(j).Ok?
    ensures RegionsOk(ParseHashRegions(j).value)
  {
    if j.IsNone() {
      RegionTableOk([], map[]);
    } else {
      RegionTableOk(j.keys, j.fields);
    }
  }

  lemma {:induction false} ParseSpeedOk(j: Json, default: nat)
    requires IsSpeed(default) && ParseSpeed(j, default).Ok?
    ensures IsSpeed(ParseSpeed(j, default).value)
  {
  }

  lemma {:induction false} ParseHeadOk(p: Payload, sessionSpeed: Json)
    requires ParseHead(p, sessionSpeed).Ok?
    ensures var h := ParseHead(p, sessionSpeed).value;
            && 1 <= h.scale <= 4 && IsSpeed(h.speed) && h.gap <= MAX_GAP_FRAMES && 1 <= h.interval <= 15
            && (h.until.Some? ==> UntilOk(h.until.value)) && RegionsOk(h.hashRegions)
  {
    if ParseUntil(p.until).value.Until? {
      ParseUntilOk(p.until);
    }
    ParseSpeedOk(sessionSpeed, 0);
    ParseSpeedOk(p.emulationSpeed, ParseSpeed(sessionSpeed, 0).value);
    ParseHashRegionsOk(p.hashRegions);
  }

  function Capped(b: Shape): Shape { b.(planned := Min(b.planned, b.maxFrames)) }

  lemma {:induction false} ScriptShapeOk(items: seq<Json>, holdFrames: nat, gap: nat, maxFrames: Json)
    requires 1 <= holdFrames <= MAX_HOLD_FRAMES && gap <= MAX_GAP_FRAMES && 0 < |items| <= MAX_INPUT_STEPS
    requires StepList(items, gap).Ok? && ScriptShape(StepList(items, gap).value, holdFrames, maxFrames).Ok?
    ensures ShapeFits(Capped(ScriptShape(StepList(items, gap).value, holdFrames, maxFrames).value), gap)
  {
    StepListOk(items, gap);
    StepListFrames(StepList(items, gap).value);
  }

  lemma {:induction false} SingleShapeOk(macro: Macro, buttons: seq<Button>, holdFrames: nat, gap: nat, maxFrames: Json)
    requires 1 <= holdFrames <= MAX_HOLD_FRAMES && gap <= MAX_GAP_FRAMES && Distinct(buttons)
    requires (macro == Buttons && buttons != []) || (macro == Steps && buttons == [])
    requires SingleShape(macro, buttons, holdFrames, gap, maxFrames).Ok?
    ensures ShapeFits(Capped(SingleShape(macro, buttons, holdFrames, gap, maxFrames).value), gap)
  {
    SingleStep(buttons, holdFrames, gap, macro == Steps);
  }

  lemma {:induction false} ParseShapeOk(p: Payload, macro: Option<Macro>, holdFrames: nat, gap: nat)
    requires 1 <= holdFrames <= MAX_HOLD_FRAMES && gap <= MAX_GAP_FRAMES && ParseShape(p, macro, holdFrames, gap).Ok?
    ensures ShapeFits(Capped(ParseShape(p, macro, holdFrames, gap).value), gap)
  {
    var b := ParseShape(p, macro, holdFrames, gap).value;
    if !p.steps.IsNone() {
      ScriptShapeOk(p.steps.items, holdFrames, gap, p.maxFrames);
    } else if b.macro == Hold {
      ParseButtonsOk(p.buttons, true);
    } else if b.macro == Buttons {
      ParseButtonsOk(p.buttons, false);
      SingleShapeOk(Buttons, b.buttons, holdFrames, gap, p.maxFrames);
    } else if b.macro == Steps {
      SingleShapeOk(Steps, [], holdFrames, gap, p.maxFrames);
    }
  }

  lemma {:induction false} SingleStep(buttons: seq<Button>, holdFrames: nat, gap: nat, wait: bool)
    ensures ScriptFrames([InputStep(buttons, holdFrames, gap, wait)]) == holdFrames + gap
  {
  }

  /** A script of legal steps lasts at least a frame. */
  lemma {:induction false} StepListFrames(steps: seq<InputStep>)
    requires steps != [] && forall i :: 0 <= i < |steps| ==> StepOk(steps[i])
    ensures ScriptFrames(steps) >= 1
  {
    assert StepOk(steps[0]);
  }

  /** Every request the parser accepts is normalised. */
  lemma {:induction false} ParseNormalises(p: Payload, sessionSpeed: Json)
    requires ParsePlayInput(p, sessionSpeed).Ok?
    ensures Normalised(ParsePlayInput(p, sessionSpeed).value)
  {
    ParseHeadOk(p, sessionSpeed);
    var head := ParseHead(p, sessionSpeed).value;
    var macro := ParseMacro(p.macro).value;
    var holdFrames := Bounded(p.holdFrames, 1, MAX_HOLD_FRAMES, 1).value;
    var play := ParsePlayInput(p, sessionSpeed).value;
    ParseShapeOk(p, macro, holdFrames, head.gap);
    var shape := ParseShape(p, macro, holdFrames, head.gap).value;
    assert play == Assemble(head, ParseMash(p).value, shape, play.callTimeoutSeconds, ParseExtra(p));
  }

  // ---------------------------------------------------------------------------------------------
  // Public arguments

  datatype PublicUntil = OnBattle | OnTextbox | OnMenu | OnStable | OnFade | OnBlocked | OnOverworld

  /** The public play arguments, parsed. */
  datatype PlayArgs = PlayArgs(buttons: seq<Button>, frames: nat, gap: nat, mash: bool, steps: seq<InputStep>,
                               until: Option<PublicUntil>, polarity: Polarity, intent: Option<Intent>, media: Media)

  function UntilDict(on: UntilOn): Json { JObj(["on"], map["on" := JStr(OnName(on))]) }

  function ClassifierDict(name: ClassifierName, polarity: Polarity): Json {
    JObj(["on", "classifier", "classifier_polarity"],
         map["on" := JStr("classifier"), "classifier" := JStr(ClassifierWord(name)),
             "classifier_polarity" := JStr(PolarityName(polarity))])
  }

  function PublicUntilDict(until: PublicUntil, polarity: Polarity): Json {
    match until
    case OnBattle => ClassifierDict(BattleLikely, polarity)
    case OnTextbox => ClassifierDict(TextboxLikely, polarity)
    case OnMenu => ClassifierDict(StartMenuLikely, polarity)
    case OnStable => UntilDict(Stable)
    case OnFade => UntilDict(LumaJump)
    case OnBlocked => UntilDict(Blocked)
    case OnOverworld => UntilDict(Overworld)
  }

  /** A long press of one direction, or of A and B only, is a hold. */
  predicate PublicHold(buttons: seq<Button>, frames: nat) {
    && frames > 16 && buttons != []
    && (|| (Directional(buttons[0]) && forall b :: b in buttons ==> b == buttons[0])
        || forall b :: b in buttons ==> b == A || b == B)
  }

  function PublicMode(media: Media, macro: Macro, planned: nat): ShotMode {
    if media == MediaVideo then Final
    else if macro == Hold || (macro == Mash && planned > 24) then InterruptAndFinal
    else Final
  }

  /** The request for public arguments, before what kind of play it is. */
  function ArgsBase(args: PlayArgs, macro: Macro): Payload {
    Payload(Absent, Absent, Absent, Absent, Absent, Absent, Absent, Absent, Absent, JInt(args.gap), JInt(0),
            JStr(ModeName(PublicMode(args.media, macro, args.frames))), JInt(1),
            if args.until.Some? then PublicUntilDict(args.until.value, args.polarity) else Absent,
            Absent, Absent, Absent, Absent,
            Absent, if args.intent.Some? then JStr(IntentName(args.intent.value)) else Absent, Absent, Absent)
  }

  function ArgsPayload(args: PlayArgs): Payload {
    if args.mash then
      ArgsBase(args, Mash).(macro := JStr("mash"), maxFrames := JInt(args.frames), mashPressFrames := JInt(12),
                            mashReleaseFrames := JInt(8), publicMash := JBool(true),
                            until := if args.until.Some? then PublicUntilDict(args.until.value, args.polarity)
                                     else ClassifierDict(TextboxLikely, Disappears))
    else if args.steps != [] then ArgsBase(args, Steps).(steps := JArr(StepItems(args.steps)))
    else if args.buttons == [] then ArgsBase(args, Steps).(wait := JBool(true), holdFrames := JInt(args.frames))
    else if PublicHold(args.buttons, args.frames) then
      ArgsBase(args, Hold).(macro := JStr("hold"), buttons := ButtonsJson(args.buttons), maxFrames := JInt(args.frames),
                            holdFrames := JInt(args.frames))
    else ArgsBase(args, Buttons).(buttons := ButtonsJson(args.buttons), holdFrames := JInt(args.frames))
  }

  function PlayInputFromArgs(args: PlayArgs): Result<PlayInput> {
    var play :- ParsePlayInput(ArgsPayload(args), Absent);
    Ok(play.(extra := Extra(Some(args.media), play.extra.publicMash || args.mash, args.intent)))
  }

  /** A public play request as it arrives. */
  datatype PublicPayload = PublicPayload(buttons: Json, frames: Json, gap: Json, mash: Json, steps: Json, until: Json,
                                         untilPolarity: Json, intent: Json, media: Json)

  /** A public condition, and the polarity its name implies, if any. */
  function PublicUntilNamed(s: string): Option<(PublicUntil, Option<Polarity>)> {
    if s == "textbox_end" || s == "clear_text" then Some((OnTextbox, Some(Disappears)))
    else if s == "overworld" then Some((OnOverworld, None))
    else if s == "battle" then Some((OnBattle, None)) else if s == "textbox" then Some((OnTextbox, None))
    else if s == "menu" then Some((OnMenu, None)) else if s == "stable" then Some((OnStable, None))
    else if s == "fade" then Some((OnFade, None)) else if s == "blocked" then Some((OnBlocked, None)) else None
  }

  function PublicMediaNamed(s: string): Option<Media> {
    if MediaNamed(s).MediaOther? then None else Some(MediaNamed(s))
  }

  function Optionally<T>(j: Json, named: string -> Option<T>): Result<Option<T>> {
    if j.IsNone() then Ok(None)
    else
      var value :- Choice(j, named);
      Ok(Some(value))
  }

  function ParsePublicStep(j: Json, defaultFrames: nat, defaultGap: nat): Result<InputStep> {
    if !j.JObj? || j.Get("buttons").Absent? then Err("each step must be an object with a buttons list")
    else
      var buttons :- ParseButtons(j.Get("buttons"), true);
      var frames :- Bounded(j.Get("frames"), 1, MAX_HOLD_FRAMES, defaultFrames);
      var gap :- Bounded(j.Get("gap"), 0, MAX_GAP_FRAMES, defaultGap);
      Ok(InputStep(buttons, frames, gap, buttons == []))
  }

  function PublicSteps(items: seq<Json>, defaultFrames: nat, defaultGap: nat): Result<seq<InputStep>> {
    if items == [] then Ok([])
    else
      var front :- PublicSteps(items[..|items| - 1], defaultFrames, defaultGap);
      var step :- ParsePublicStep(items[|items| - 1], defaultFrames, defaultGap);
      Ok(front + [step])
  }

  /** A mash lasts as long as it may, a single direction walks, anything else is a tap. */
  function DefaultFrames(mash: bool, buttons: seq<Button>): nat {
    if mash then MAX_FRAMES_PER_CALL else if |buttons| == 1 && Directional(buttons[0]) then 1800 else 16
  }

  function ReadPlayArgs(raw: PublicPayload, defaultMedia: Media): Result<PlayArgs> {
    var mash :- if raw.mash.IsNone() then Ok(false)
                else if raw.mash.JBool? then Ok(raw.mash.b)
                else Err("mash must be a boolean");
    var until :- Optionally(raw.until, PublicUntilNamed);
    var explicit :- Optionally(raw.untilPolarity, PolarityNamed);
    var intent :- ParseIntent(raw.intent);
    var media :- if raw.media.IsNone() then Ok(defaultMedia) else Choice(raw.media, PublicMediaNamed);
    var gap :- Bounded(raw.gap, 0, MAX_GAP_FRAMES, 0);
    var hasButtons, hasSteps := !raw.buttons.IsNone(), !raw.steps.IsNone();
    if hasButtons && hasSteps then Err("provide either top-level buttons or steps, not both")
    else if mash && hasSteps then Err("provide either mash or steps, not both")
    else if !mash && !hasButtons && !hasSteps && intent.None? then Err("at least one button is required")
    else
      var buttons :- if hasButtons then ParseButtons(raw.buttons, true) else Ok([]);
      var frames :- Bounded(raw.frames, 1, MAX_HOLD_FRAMES, DefaultFrames(mash, buttons));
      var steps :- if !hasSteps then Ok([])
                   else if !raw.steps.JArr? then Err("steps")
                   else if raw.steps.items == [] || |raw.steps.items| > MAX_INPUT_STEPS then Err("steps")
                   else PublicSteps(raw.steps.items, frames, gap);
      var implied := if until.Some? then until.value.1 else None;
      var polarity := if explicit.Some? then explicit.value else if implied.Some? then implied.value else Appears;
      Ok(PlayArgs(buttons, frames, gap, mash, steps, if until.Some? then Some(until.value.0) else None, polarity,
                  intent, media))
  }

  /** Arguments are accepted only if the request they stand for is. */
  function ParsePlayArgs(raw: PublicPayload, defaultMedia: Media): Result<PlayArgs> {
    var args :- ReadPlayArgs(raw, defaultMedia);
    var play :- PlayInputFromArgs(args);
    Ok(args)
  }

  lemma {:induction false} ExtraReplaced(p: PlayInput, extra: Extra)
    requires Normalised(p) && Uncut(p) && (extra.intent.Some? ==> extra.intent == p.intent)
    requires extra.media.Some? ==> WordOk(extra.media.value)
    ensures Normalised(p.(extra := extra)) && Uncut(p.(extra := extra))
  {
  }

  /** What the public arguments build is normalised, and its frame cap never cuts its script. */
  lemma {:induction false} ArgsNormalised(args: PlayArgs)
    requires PlayInputFromArgs(args).Ok? && !args.media.MediaOther?
    ensures var p := PlayInputFromArgs(args).value; Normalised(p) && Uncut(p)
  {
    ParseNormalises(ArgsPayload(args), Absent);
    ArgsIntent(args);
    ArgsUncut(args);
    var play := ParsePlayInput(ArgsPayload(args), Absent).value;
    IntentParsed(ArgsPayload(args), Absent);
    ExtraReplaced(play, Extra(Some(args.media), play.extra.publicMash || args.mash, args.intent));
  }

  lemma {:induction false} IntentParsed(p: Payload, sessionSpeed: Json)
    requires ParsePlayInput(p, sessionSpeed).Ok?
    ensures ParseIntent(p.intent) == Ok(ParsePlayInput(p, sessionSpeed).value.intent)
  {
  }

  lemma {:induction false} ArgsIntent(args: PlayArgs)
    ensures ParseIntent(ArgsPayload(args).intent) == Ok(args.intent)
  {
    if args.intent.Some? {
      IntentReads(args.intent.value);
    }
  }

  /** Without a frame cap of its own, a script gets one that fits. */
  lemma {:induction false} UncappedFits(b: Payload, macro: Option<Macro>, holdFrames: nat, gap: nat)
    requires b.maxFrames == Absent && ParseShape(b, macro, holdFrames, gap).Ok?
    ensures var shape := ParseShape(b, macro, holdFrames, gap).value;
            shape.macro == Steps || shape.macro == Buttons ==> ScriptFrames(shape.steps) <= shape.maxFrames
  {
    var shape := ParseShape(b, macro, holdFrames, gap).value;
    SingleStep(shape.buttons, holdFrames, gap, shape.macro == Steps);
  }

  lemma {:induction false} ArgsCap(args: PlayArgs)
    ensures var b := ArgsPayload(args);
            b.maxFrames == Absent || (b.steps == Absent
                && (ParseMacro(b.macro) == Ok(Some(Hold)) || ParseMacro(b.macro) == Ok(Some(Mash))))
  {
    MacroReads(Hold);
    MacroReads(Mash);
  }

  lemma {:induction false} UncutFromPieces(b: Payload, sessionSpeed: Json)
    requires ParsePlayInput(b, sessionSpeed).Ok?
    requires b.maxFrames == Absent || (b.steps == Absent
        && (ParseMacro(b.macro) == Ok(Some(Hold)) || ParseMacro(b.macro) == Ok(Some(Mash))))
    ensures Uncut(ParsePlayInput(b, sessionSpeed).value)
  {
    if b.maxFrames == Absent {
      UncappedFits(b, ParseMacro(b.macro).value, Bounded(b.holdFrames, 1, MAX_HOLD_FRAMES, 1).value,
                   ParseHead(b, sessionSpeed).value.gap);
    }
  }

  lemma {:induction false} ArgsUncut(args: PlayArgs)
    requires ParsePlayInput(ArgsPayload(args), Absent).Ok?
    ensures Uncut(ParsePlayInput(ArgsPayload(args), Absent).value)
  {
    ArgsCap(args);
    UncutFromPieces(ArgsPayload(args), Absent);
  }

  // ---------------------------------------------------------------------------------------------
  // The loops of the parser

  /** Button names in order, without repeats. */
  method NormalizeButtons(j: Json, allowEmpty: bool) returns (r: Result<seq<Button>>)
    ensures r == ParseButtons(j, allowEmpty)
  {
    if j.IsNone() || j == JArr([]) {
      return if allowEmpty then Ok([]) else Err("at least one button is required");
    }
    if !j.JArr? {
      return Err("buttons must be a list");
    }
    var normalized: seq<Button> := [];
    var seen: set<Button> := {};
    for i := 0 to |j.items|
      invariant ButtonList(j.items[..i]) == Ok(normalized)
      invariant forall b :: b in seen <==> b in normalized
    {
      assert j.items[..i + 1][..i] == j.items[..i];
      var value := ParseButton(j.items[i]);
      if value.Err? {
        ButtonListFails(j.items, i + 1);
        return Err(value.error);
      }
      if value.value !in seen {
        seen := seen + {value.value};
        normalized := normalized + [value.value];
      }
    }
    assert j.items[..|j.items|] == j.items;
    r := Ok(normalized);
  }

  lemma {:induction false} ButtonListFails(items: seq<Json>, n: nat)
    requires n <= |items| && ButtonList(items[..n]).Err?
    ensures ButtonList(items) == ButtonList(items[..n])
    decreases |items|
  {
    if n == |items| {
      assert items[..n] == items;
    } else {
      assert items[..|items| - 1][..n] == items[..n];
      ButtonListFails(items[..|items| - 1], n);
    }
  }

  method PlannedStepFrames(steps: seq<InputStep>) returns (total: nat)
    ensures total == ScriptFrames(steps)
  {
    total := 0;
    for i := 0 to |steps|
      invariant total + ScriptFrames(steps[i..]) == ScriptFrames(steps)
    {
      assert steps[i..][1..] == steps[i + 1..];
      total := total + steps[i].holdFrames + steps[i].gapFrames;
    }
  }
}
