/** The play intents: loops of small play calls against what the screen shows, and the frames they can
    use up. The clock, the emulator's death and everything the screen shows are arbitrary. */
module Intents {
  import opened PlayTypes
  import opened Phases
  import opened Sampling
  import opened Screenshots
  import opened EngineReference
  import opened InputEngine
  import opened PlayCall
  import opened UntilMonitor
  import opened IntentRequests

  datatype Cell = TopLeft | TopRight | BottomLeft | BottomRight

  /** What the intents read off the screen; `pane` is None without a command pane, and otherwise says
      where its cursor is, if it can tell. */
  datatype Eyes = Eyes(see: Vision, pane: Frame -> Option<Option<Cell>>) {
    function Flags(f: Frame): Flags { see.classifyAlone(f) }

    predicate PaneVisible(f: Frame) { pane(f).Some? }

    /** The way to the bottom right cell, and A. */
    function Path(f: Frame): (path: seq<Button>)
      ensures |path| <= 3 && (path == [] <==> !PaneVisible(f))
    {
      match pane(f)
      case None => []
      case Some(Some(BottomRight)) => [A]
      case Some(Some(BottomLeft)) => [Right, A]
      case Some(Some(TopRight)) => [Down, A]
      case Some(_) => [Down, Right, A]
    }
  }

  const LONG_ACTION_FRAMES := 30
  const ADVANCE_WAIT_FRAMES := 90
  const ADVANCE_GONE_EVALS := 3
  const ADVANCE_EVAL_FRAMES := 8
  const SKIP_INTRO_CAP := 10800
  const BATTLE_TURN_ITERS := 16
  const BATTLE_TURN_FRAME_CAP := 3600

  // ---------------------------------------------------------------------------------------------
  // One call

  /** A public mash without a text box in sight becomes a short wait. */
  function RewritePublicMash(play: PlayInput, textbox: bool): PlayInput {
    if play.macro != Mash || !play.extra.publicMash then play
    else if textbox then if play.until.None? then play.(until := Some(TextboxUntil(Disappears))) else play
    else
      play.(macro := Steps, steps := [InputStep([], 12, 0, true)], buttons := [], maxFrames := 12, plannedFrames := 12,
            holdFrames := 12, until := None, applyDefaultHoldAbort := false, disableDefaultHoldAbort := true,
            intent := None)
  }

  /** A rewritten mash holds nothing, for twelve frames. */
  lemma {:induction false} RewrittenMashHoldsNothing(play: PlayInput, f: nat)
    requires play.macro == Mash && play.extra.publicMash
    ensures var wait := RewritePublicMash(play, false);
            |HeldBy(PhasesOf(wait, Budget(wait)))| == 12 && (f < 12 ==> HeldBy(PhasesOf(wait, Budget(wait)))[f] == {})
  {
    var wait := RewritePublicMash(play, false);
    FlattenedSchedule(wait, 12, f);
    assert ScriptFrames([InputStep([], 12, 0, true)]) == 12;
  }

  predicate WantsGif(play: PlayInput) {
    play.extra.media == Some(MediaVideo) && play.macro in {Mash, Hold}
        && Max(play.plannedFrames, play.maxFrames) >= LONG_ACTION_FRAMES
  }

  /** The most frames a call can report. */
  function Limit(play: PlayInput): nat { Budget(play) + if play.macro == Mash then MashGap(play) else 0 }

  /** The request as the engine gets it. */
  function Prepared(request: PlayInput, textbox: bool): PlayInput {
    var play := RewritePublicMash(request, textbox);
    if WantsGif(play) then play.(screenshotMode := Keyframes) else play
  }

  /** The call of a request, with the monitor it asks for; `seen` is the picture it starts from. */
  function ConfigOf(eyes: Eyes, request: PlayInput, seen: Frame, before: Frame): (c: Config)
    requires Playable(Prepared(request, eyes.Flags(seen).textbox))
    ensures c.Valid()
  {
    var play := Prepared(request, eyes.Flags(seen).textbox);
    Setup(play, Some(WantsFor(play.screenshotMode)), Some(Rule(Watch(eyes.see, play, seen))), before)
  }

  /** A call to be shown as a film also keeps the picture it starts from. */
  function Opening(play: PlayInput, seen: Frame): seq<Shot> {
    if WantsGif(play) then [Shot(0, seen, false, false, None)] else []
  }

  /** The call is n frames of the reference. */
  ghost predicate RanFor(eyes: Eyes, request: PlayInput, seen: Frame, before: Frame, after: Frame, advanced: nat,
                         n: nat) {
    Playable(Prepared(request, eyes.Flags(seen).textbox)) &&
    var c := ConfigOf(eyes, request, seen, before);
    && n <= c.Total() && Run(c, n).n == n && Boundary(c, n)
    && after == Played(c, Run(c, n)) && advanced == n + RestGap(c, Run(c, n))
  }

  ghost predicate Ran(eyes: Eyes, request: PlayInput, seen: Frame, before: Frame, after: Frame, advanced: nat) {
    seen <= before && exists n :: RanFor(eyes, request, seen, before, after, advanced, n)
  }

  /** The stop reason, the detail, the steps and the pictures are those of the reference after n frames. */
  ghost predicate Told(eyes: Eyes, request: PlayInput, seen: Frame, before: Frame, r: PlayResult, records: seq<Shot>,
                       n: nat)
    requires r.Finished?
  {
    var textbox := eyes.Flags(seen).textbox;
    var play := Prepared(request, textbox);
    Playable(play) &&
    var c := ConfigOf(eyes, request, seen, before);
    && n <= c.Total() && StopReported(c, play, Run(c, n), r, r.stop == CallTimeout)
    && (exists moved :: (moved ==> r.stop == CallTimeout) && StepsTold(PhasesOf(play, Budget(play)), n, moved, r.steps))
    && records == Opening(RewritePublicMash(request, textbox), seen) + CallRecords(c, Run(c, n), seen)
  }

  ghost predicate RanAndTold(eyes: Eyes, request: PlayInput, seen: Frame, before: Frame, after: Frame, r: PlayResult,
                             records: seq<Shot>)
    requires r.Finished?
  {
    && seen <= before
    && exists n :: RanFor(eyes, request, seen, before, after, r.framesAdvanced, n)
                   && Told(eyes, request, seen, before, r, records, n)
  }

  /** A call reports at most its limit, and plays what it reports and at most one frame more. */
  lemma {:induction false} CallFlow(eyes: Eyes, request: PlayInput, seen: Frame, before: Frame, after: Frame,
                                    advanced: nat)
    requires Ran(eyes, request, seen, before, after, advanced)
    ensures advanced <= Limit(RewritePublicMash(request, eyes.Flags(seen).textbox))
    ensures |before| + advanced <= |after| <= |before| + advanced + 1
  {
    var n :| RanFor(eyes, request, seen, before, after, advanced, n);
    var play := Prepared(request, eyes.Flags(seen).textbox);
    CallBudget(play, Some(WantsFor(play.screenshotMode)), Some(Rule(Watch(eyes.see, play, seen))), before, n);
  }

  lemma {:induction false} CallIsRan(eyes: Eyes, request: PlayInput, seen: Frame, before: Frame, boy: PyBoy,
                                     monitor: Monitor, plan: ScreenshotPlan, clock: Clock, from: nat, first: nat,
                                     inLoop: nat, r: PlayResult, n: nat)
    requires r.Finished? && seen <= before && Playable(Prepared(request, eyes.Flags(seen).textbox))
    requires var textbox := eyes.Flags(seen).textbox;
             var play := Prepared(request, textbox);
             CallDone(ConfigOf(eyes, request, seen, before), play, PhasesOf(play, Budget(play)), n, r, boy, monitor,
                      plan, clock, Opening(RewritePublicMash(request, textbox), seen), seen, from, first, inLoop)
    ensures RanAndTold(eyes, request, seen, before, boy.frames, r, plan.records)
  {
    assert RanFor(eyes, request, seen, before, boy.frames, r.framesAdvanced, n);
    assert Told(eyes, request, seen, before, r, plan.records, n);
  }

  /** The monitor and the capture plan of a request, on the picture now shown. */
  method Prepare(boy: PyBoy, request: PlayInput, eyes: Eyes)
    returns (play: PlayInput, monitor: Monitor, plan: ScreenshotPlan)
    requires boy.Valid()
    ensures fresh(monitor) && fresh(plan)
    ensures play == Prepared(request, eyes.Flags(boy.Lcd()).textbox)
    ensures monitor.decide == Rule(Watch(eyes.see, play, boy.Lcd())) && monitor.shown == []
    ensures plan.wants == WantsFor(play.screenshotMode)
    ensures plan.records == Opening(RewritePublicMash(request, eyes.Flags(boy.Lcd()).textbox), boy.Lcd())
  {
    var baseline := boy.CaptureNative();
    play := RewritePublicMash(request, eyes.Flags(baseline).textbox);
    var gif := WantsGif(play);
    if gif {
      play := play.(screenshotMode := Keyframes);
    }
    monitor := new Monitor(Rule(Watch(eyes.see, play, baseline)));
    plan := new ScreenshotPlan(play.screenshotMode);
    if gif {
      plan.Record(0, baseline, false, false, None);
    }
  }

  /** One internal play call, with its own monitor and capture plan. */
  method Execute(boy: PyBoy, request: PlayInput, eyes: Eyes, clock: Clock)
    returns (r: PlayResult, ghost records: seq<Shot>)
    requires boy.Valid() && boy.held == {} && Playable(request)
    modifies boy, clock
    ensures boy.Valid() && boy.held == {}
    ensures r.Finished? ==> RanAndTold(eyes, request, old(boy.Lcd()), old(boy.frames), boy.frames, r, records)
  {
    ghost var seen, before, ticks, first := boy.Lcd(), boy.frames, |boy.ticks|, clock.readings;
    var play, monitor, plan := Prepare(boy, request, eyes);
    ghost var n, inLoop;
    r, n, inLoop := RunPlayInput(boy, play, monitor, plan, clock);
    records := plan.records;
    if r.Finished? {
      CallIsRan(eyes, request, seen, before, boy, monitor, plan, clock, ticks, first, inLoop, r, n);
    }
  }

  // ---------------------------------------------------------------------------------------------
  // Merging the parts of an intent

  /** Frames reported by a list of finished calls. */
  function Sum(parts: seq<PlayResult>): nat
    requires AllFinished(parts)
  {
    if parts == [] then 0 else Sum(parts[..|parts| - 1]) + parts[|parts| - 1].framesAdvanced
  }

  predicate AllFinished(parts: seq<PlayResult>) { forall i :: 0 <= i < |parts| ==> parts[i].Finished? }

  lemma {:induction false} SumSnoc(parts: seq<PlayResult>, part: PlayResult)
    requires AllFinished(parts) && part.Finished?
    ensures AllFinished(parts + [part]) && Sum(parts + [part]) == Sum(parts) + part.framesAdvanced
  {
    assert (parts + [part])[..|parts|] == parts;
  }

  /** The last part, reporting the frames of all of them. */
  method Merge(parts: seq<PlayResult>) returns (r: PlayResult)
    requires AllFinished(parts)
    ensures r.Finished? && r.framesAdvanced == Sum(parts)
    ensures parts != [] ==> r == parts[|parts| - 1].(framesAdvanced := Sum(parts))
    ensures parts == [] ==> r == Finished(0, Completed, None, false, [])
  {
    if parts == [] {
      return Finished(0, Completed, None, false, []);
    }
    var frames := 0;
    for i := 0 to |parts|
      invariant frames == Sum(parts[..i])
    {
      SumSnoc(parts[..i], parts[i]);
      assert parts[..i + 1] == parts[..i] + [parts[i]];
      frames := frames + parts[i].framesAdvanced;
    }
    assert parts[..|parts|] == parts;
    r := parts[|parts| - 1].(framesAdvanced := frames);
  }

  /** One call of an intent: the picture shown, everything played before and after it, what was asked
      for, and the frames it reported. */
  datatype Asked = Asked(seen: Frame, before: Frame, ask: Ask, after: Frame, advanced: nat)

  ghost predicate AskRan(eyes: Eyes, play: PlayInput, a: Asked) {
    AskOk(a.ask) && Ran(eyes, RequestOf(play, a.ask), a.seen, a.before, a.after, a.advanced)
  }

  /** `ran` is a property that every call the engine completes for this intent has. */
  ghost predicate Sound(ran: Asked -> bool, eyes: Eyes, play: PlayInput) {
    forall a: Asked {:trigger AskRan(eyes, play, a)} :: AskRan(eyes, play, a) ==> ran(a)
  }

  lemma {:induction false} AskLimit(play: PlayInput, ask: Ask, textbox: bool)
    ensures Limit(RewritePublicMash(RequestOf(play, ask), textbox)) <= MostFrames(ask)
  {
  }

  lemma {:induction false} AskFlow(eyes: Eyes, play: PlayInput, a: Asked)
    requires AskRan(eyes, play, a)
    ensures a.advanced <= MostFrames(a.ask) && |a.before| + a.advanced <= |a.after| <= |a.before| + a.advanced + 1
  {
    CallFlow(eyes, RequestOf(play, a.ask), a.seen, a.before, a.after, a.advanced);
    AskLimit(play, a.ask, eyes.Flags(a.seen).textbox);
  }

  /** The calls made, one after the other, lead from what was played at first to what is played now. */
  ghost predicate Chain(ran: Asked -> bool, start: Frame, log: seq<Asked>, end: Frame)
    decreases |log|
  {
    if log == [] then start == end
    else
      var last := log[|log| - 1];
      last.after == end && ran(last) && Chain(ran, start, log[..|log| - 1], last.before)
  }

  function Total(log: seq<Asked>): nat { if log == [] then 0 else Total(log[..|log| - 1]) + log[|log| - 1].advanced }

  lemma {:induction false} ChainSnoc(ran: Asked -> bool, start: Frame, log: seq<Asked>, a: Asked)
    requires Chain(ran, start, log, a.before) && ran(a)
    ensures Chain(ran, start, log + [a], a.after) && Total(log + [a]) == Total(log) + a.advanced
  {
    assert (log + [a])[..|log|] == log;
  }

  lemma {:induction false} ChainAppend(ran: Asked -> bool, start: Frame, log: seq<Asked>, mid: Frame, more: seq<Asked>,
                                       end: Frame)
    requires Chain(ran, start, log, mid) && Chain(ran, mid, more, end)
    ensures Chain(ran, start, log + more, end) && Total(log + more) == Total(log) + Total(more)
    decreases |more|
  {
    if more == [] {
      assert log + more == log;
    } else {
      var front, last := more[..|more| - 1], more[|more| - 1];
      ChainAppend(ran, start, log, mid, front, last.before);
      ChainSnoc(ran, start, log + front, last);
      assert log + more == log + front + [last];
    }
  }

  /** Over a chain of calls the engine completed, the emulator plays the frames reported, and at most
      one more per call. */
  lemma {:induction false} FramesAccounted(ran: Asked -> bool, eyes: Eyes, play: PlayInput, start: Frame,
                                           log: seq<Asked>, end: Frame)
    requires Chain(ran, start, log, end) && forall a :: ran(a) ==> AskRan(eyes, play, a)
    ensures |start| + Total(log) <= |end| <= |start| + Total(log) + |log|
    decreases |log|
  {
    if log != [] {
      var last := log[|log| - 1];
      FramesAccounted(ran, eyes, play, start, log[..|log| - 1], last.before);
      AskFlow(eyes, play, last);
    }
  }

  lemma {:induction false} EveryCallRan(ran: Asked -> bool, start: Frame, log: seq<Asked>, end: Frame, i: nat)
    requires Chain(ran, start, log, end) && i < |log|
    ensures ran(log[i])
    decreases |log|
  {
    if i < |log| - 1 {
      EveryCallRan(ran, start, log[..|log| - 1], log[|log| - 1].before, i);
    }
  }

  /** One intent under way, with what its loop passes to every call it makes: the calls made so far
      account for everything the emulator has played since. */
  class IntentRun {
    const boy: PyBoy
    const clock: Clock
    const eyes: Eyes
    const play: PlayInput
    var parts: seq<PlayResult>
    ghost const ran: Asked -> bool
    ghost const start: Frame
    ghost var log: seq<Asked>

    ghost predicate Valid()
      reads this, boy
    {
      && boy.Valid() && boy.held == {} && AllFinished(parts) && Sum(parts) == Total(log)
      && Chain(ran, start, log, boy.frames) && (log != [] ==> parts != []) && Sound(ran, eyes, play)
    }

    /** This run is that of a caller's objects, from what they had played. */
    ghost predicate For(boy: PyBoy, clock: Clock, eyes: Eyes, play: PlayInput, ran: Asked -> bool, start: Frame)
      reads this, boy
    {
      && this.boy == boy && this.clock == clock && this.eyes == eyes && this.play == play && this.ran == ran
      && this.start == start
      && Valid()
    }

    constructor (boy: PyBoy, clock: Clock, eyes: Eyes, play: PlayInput, ghost ran: Asked -> bool)
      requires boy.Valid() && boy.held == {} && Sound(ran, eyes, play)
      ensures For(boy, clock, eyes, play, ran, boy.frames) && parts == [] && log == [] && fresh(this)
    {
      this.boy, this.clock, this.eyes, this.play := boy, clock, eyes, play;
      parts, this.ran, start, log := [], ran, boy.frames, [];
    }

    method Look() returns (flags: Flags)
      requires Valid()
      ensures flags == eyes.Flags(boy.Lcd())
    {
      var frame := boy.CaptureNative();
      flags := eyes.Flags(frame);
    }

    /** One engine call on the picture now shown. */
    method Call(ask: Ask) returns (part: PlayResult, ghost a: Asked)
      requires boy.Valid() && boy.held == {} && Sound(ran, eyes, play) && AskOk(ask)
      modifies boy, clock
      ensures boy.Valid() && boy.held == {}
      ensures part.Finished? ==>
                && ran(a) && a.before == old(boy.frames) && a.after == boy.frames && a.seen == old(boy.Lcd())
                && a.ask == ask && a.advanced == part.framesAdvanced <= MostFrames(ask)
    {
      ghost var seen, before := boy.Lcd(), boy.frames;
      ghost var records;
      part, records := Execute(boy, RequestOf(play, ask), eyes, clock);
      a := Asked(seen, before, ask, boy.frames, if part.Finished? then part.framesAdvanced else 0);
      if part.Finished? {
        assert AskRan(eyes, play, a);
        AskFlow(eyes, play, a);
      }
    }

    /** Plays one more part; false when the emulator died, which ends the intent with an exception. */
    method Add(ask: Ask) returns (alive: bool, advanced: nat, ghost a: Asked)
      requires Valid() && AskOk(ask)
      modifies this, boy, clock
      ensures boy.Valid() && boy.held == {}
      ensures alive ==> Valid() && log == old(log) + [a] && Total(log) == Total(old(log)) + advanced
      ensures alive ==> a.seen == old(boy.Lcd()) && a.ask == ask && a.advanced == advanced <= MostFrames(ask)
    {
      var part;
      part, a := Call(ask);
      if part.EmulatorDied? {
        return false, 0, a;
      }
      ChainSnoc(ran, start, log, a);
      Append(part, [a]);
      return true, part.framesAdvanced, a;
    }

    /** A finished part, made of one call or merged from several. */
    method Append(part: PlayResult, ghost more: seq<Asked>)
      requires boy.Valid() && boy.held == {} && AllFinished(parts) && part.Finished? && Sum(parts) == Total(log)
      requires Chain(ran, start, log + more, boy.frames) && Sound(ran, eyes, play)
      requires Total(log + more) == Total(log) + part.framesAdvanced
      modifies this`parts, this`log
      ensures Valid() && parts == old(parts) + [part] && log == old(log) + more
    {
      SumSnoc(parts, part);
      parts := parts + [part];
      log := log + more;
    }

    /** One turn of advancing text: mash it away, or wait and look whether it came back. */
    method AdvanceOnce(remaining: nat) returns (alive: bool, used: nat, text: bool, stalled: bool, ghost a: Asked)
      requires Valid() && 0 < remaining <= MAX_FRAMES_PER_CALL
      modifies this, boy, clock
      ensures boy.Valid() && boy.held == {}
      ensures alive ==> Valid() && log == old(log) + [a] && AdvanceAsk(eyes, a) && a.seen == old(boy.Lcd())
      ensures alive ==> Total(log) <= Total(old(log)) + used <= Total(log) + 1 && used <= remaining + 27
      ensures alive ==> used > 0 || stalled
      ensures alive && stalled ==> a.advanced == 0
      ensures alive && !text ==> !eyes.Flags(boy.Lcd()).textbox && !stalled
    {
      var flags := Look();
      if flags.textbox {
        alive, used, a := Add(MashA(MashFrames(remaining), TextboxUntil(Disappears)));
        return alive, used, true, used <= 0, a;
      }
      var advanced;
      alive, advanced, a := Add(WaitFor(Min(ADVANCE_EVAL_FRAMES, remaining), None));
      if !alive { return false, 0, false, false, a; }
      flags := Look();
      return true, Max(advanced, 1), flags.textbox, false, a;
    }

    /** Mashes A while text is shown, and waits until it has been gone for three looks. */
    method AdvanceThrough(budget: nat, start: nat) returns (alive: bool, ghost why: AdvanceEnd)
      requires Valid() && budget <= MAX_FRAMES_PER_CALL && start <= ADVANCE_WAIT_FRAMES
      requires Total(log) <= start <= Total(log) + |log| && (log != [] ==> AdvanceAsks(eyes, log))
      requires log == [] ==> 0 < budget && eyes.Flags(boy.Lcd()).textbox
      modifies this, boy, clock
      ensures boy.Valid() && boy.held == {}
      ensures alive ==> Valid() && AdvanceAsks(eyes, log) && Total(log) <= Max(ADVANCE_WAIT_FRAMES, budget + 27)
      ensures alive ==>
                match why
                case NoText => false
                case Gone => !eyes.Flags(boy.Lcd()).textbox
                case Spent => Total(log) + |log| >= budget
                case Stalled => NoProgress(log)
    {
      why := Spent;
      alive := true;
      var used, gone := start, 0;
      while used < budget
        invariant Valid() && Total(log) <= used <= Total(log) + |log|
        invariant used <= Max(ADVANCE_WAIT_FRAMES, budget + 27)
        invariant log == [] ==> used == 0 < budget && eyes.Flags(boy.Lcd()).textbox
        invariant log != [] ==> AdvanceAsks(eyes, log)
        decreases budget - used
      {
        ghost var was := log;
        var advanced, text, stalled;
        ghost var a;
        alive, advanced, text, stalled, a := AdvanceOnce(budget - used);
        if !alive { return; }
        AdvanceAsksSnoc(eyes, was, a);
        used := used + advanced;
        if stalled { why := Stalled; break; }
        gone := if text then 0 else gone + 1;
        if gone >= ADVANCE_GONE_EVALS { why := Gone; break; }
      }
    }

    method Ready() returns (ready: bool)
      requires Valid()
      ensures ready <==> TurnEventReady(eyes, boy.Lcd())
    {
      var frame := boy.CaptureNative();
      ready := TurnEventReady(eyes, frame);
    }

    /** Answers what a battle shows: text is mashed away, otherwise one A. */
    method Answer(text: bool, left: nat) returns (alive: bool, advanced: nat, ghost a: Asked)
      requires Valid() && 0 < left <= BATTLE_TURN_FRAME_CAP
      requires text == eyes.Flags(boy.Lcd()).textbox && (text || eyes.Flags(boy.Lcd()).battle)
      modifies this, boy, clock
      ensures boy.Valid() && boy.held == {}
      ensures alive ==> Valid() && log == old(log) + [a] && Total(log) == Total(old(log)) + advanced
      ensures alive ==> BattleAsk(eyes, a) && !a.ask.WaitFor? && advanced <= MashFrames(Min(240, left)) + 12
    {
      if text {
        alive, advanced, a := Add(MashA(MashFrames(Min(240, left)), TextboxUntil(Disappears)));
      } else {
        alive, advanced, a := Add(Tap([A], 12, 4));
      }
    }

    /** One turn of a battle: answer it, then wait for the next event. */
    method BattleOnce(text: bool, left: nat) returns (alive: bool, advanced: nat, ghost asked: seq<Asked>)
      requires Valid() && 0 < left <= BATTLE_TURN_FRAME_CAP
      requires text == eyes.Flags(boy.Lcd()).textbox && (text || eyes.Flags(boy.Lcd()).battle)
      modifies this, boy, clock
      ensures boy.Valid() && boy.held == {}
      ensures alive ==>
                Valid() && log == old(log) + asked && Total(log) == Total(old(log)) + advanced && advanced <= left + 27
      ensures alive ==> asked != [] && BattleAsks(eyes, asked) && Answers(asked) == 1
    {
      ghost var was, a, more := log, Asked([], [], Tap([], 0, 0), [], 0), [];
      alive, advanced, a := Answer(text, left);
      asked := [a];
      if !alive { return; }
      var settled;
      alive, settled, more := Settle(Min(180, left - advanced));
      if !alive { return; }
      asked := [a] + more;
      AnswerAndWaits(eyes, was, a, more, log);
      TurnBudget(left, advanced, settled);
      advanced := advanced + settled;
    }

    /** Waits for the next event of a battle, as one part. */
    method Settle(budget: int) returns (alive: bool, advanced: nat, ghost more: seq<Asked>)
      requires Valid() && log != []
      modifies this, boy, clock
      ensures boy.Valid() && boy.held == {}
      ensures alive ==> Valid() && log == old(log) + more && Total(log) == Total(old(log)) + advanced
      ensures alive ==> advanced <= Max(0, budget) && WaitAsks(eyes, more)
    {
      ghost var here := boy.frames;
      var settle;
      settle, more := WaitTurnEvent(boy, play, eyes, clock, budget, ran);
      if settle.EmulatorDied? { return false, 0, more; }
      ChainAppend(ran, start, log, here, more, boy.frames);
      Append(settle, more);
      return true, settle.framesAdvanced, more;
    }

    /** Taps Start and A until a menu or text shows. */
    method TapThrough(cap: nat) returns (alive: bool)
      requires Valid() && log == [] && parts == [] && cap > 0
      modifies this, boy, clock
      ensures boy.Valid() && boy.held == {}
      ensures alive ==> Valid() && Total(log) <= cap + 15 && (log == [] <==> parts == [])
      ensures alive ==> Skipped(eyes, log, boy.Lcd(), cap)
      ensures alive && log == [] ==> boy.frames == old(boy.frames) && boy.Lcd() == old(boy.Lcd())
    {
      var used := 0;
      while used < cap
        invariant Valid() && Total(log) == used <= cap + 15 && (log == [] <==> parts == [])
        invariant forall i :: 0 <= i < |log| ==> SkipAsk(eyes, log[i])
        invariant log == [] ==> boy.frames == old(boy.frames) && boy.Lcd() == old(boy.Lcd())
      {
        var flags := Look();
        if flags.menu || flags.textbox { break; }
        var advanced;
        ghost var a;
        alive, advanced, a := Add(Tap([Button.Start, A], 4, 4));
        if !alive { return; }
        used := used + advanced;
        if advanced <= 0 { break; }
      }
      alive := true;
    }

    /** Clears a text box; done when that was all there was. */
    method FleeText() returns (alive: bool, done: bool, ghost a: Asked)
      requires Valid() && eyes.Flags(boy.Lcd()).textbox
      modifies this, boy, clock
      ensures boy.Valid() && boy.held == {}
      ensures alive ==> Valid() && log == old(log) + [a] && Total(log) <= Total(old(log)) + 252
      ensures alive ==> MashesText(a) && a.seen == old(boy.Lcd()) && (done <==> !StillFighting(eyes, boy.Lcd()))
    {
      var advanced;
      alive, advanced, a := Add(MashA(MashFrames(Min(240, FrameBudget(play))), TextboxUntil(Disappears)));
      if !alive { return false, false, a; }
      var frame := boy.CaptureNative();
      done := !eyes.Flags(frame).battle && !eyes.Flags(frame).menu && !eyes.PaneVisible(frame);
    }

    /** One attempt to flee; done when the text box was all there was, or the battle is gone. */
    method FleeOnce() returns (alive: bool, done: bool, ghost asked: seq<Asked>)
      requires Valid()
      modifies this, boy, clock
      ensures boy.Valid() && boy.held == {}
      ensures alive ==> Valid() && Total(log) <= Total(old(log)) + 444
      ensures alive ==> log == old(log) + asked && FleeAsks(eyes, asked) && asked[0].seen == old(boy.Lcd())
      ensures alive ==> (done <==> !eyes.Flags(boy.Lcd()).battle)
      ensures alive && |asked| == 1 ==> !StillFighting(eyes, boy.Lcd())
    {
      var flags := Look();
      if flags.textbox {
        alive, done, asked := FleePastText();
      } else {
        alive, done, asked := FleeKeys();
      }
    }

    /** Clears a text box first, and goes on unless that was all there was. */
    method FleePastText() returns (alive: bool, done: bool, ghost asked: seq<Asked>)
      requires Valid() && eyes.Flags(boy.Lcd()).textbox
      modifies this, boy, clock
      ensures boy.Valid() && boy.held == {}
      ensures alive ==> Valid() && Total(log) <= Total(old(log)) + 444
      ensures alive ==> log == old(log) + asked && FleeAsks(eyes, asked) && asked[0].seen == old(boy.Lcd())
      ensures alive ==> (done <==> !eyes.Flags(boy.Lcd()).battle)
      ensures alive && |asked| == 1 ==> !StillFighting(eyes, boy.Lcd())
    {
      ghost var was, text, keys := log, Asked([], [], Tap([], 0, 0), [], 0), [];
      alive, done, text := FleeText();
      asked := [text];
      if !alive || done { return; }
      alive, done, keys := FleeKeys();
      if !alive { return; }
      asked := [text] + keys;
      FleeJoins(eyes, was, text, keys, log);
    }

    /** B, a wait, the way to the last command if there is a pane, and a wait for the world. */
    method FleeKeys() returns (alive: bool, done: bool, ghost asked: seq<Asked>)
      requires Valid()
      modifies this, boy, clock
      ensures boy.Valid() && boy.held == {}
      ensures alive ==> Valid() && Total(log) <= Total(old(log)) + 192
      ensures alive ==> log == old(log) + asked && FleeKeysAsked(eyes, asked) && asked[0].seen == old(boy.Lcd())
      ensures alive ==> (done <==> !eyes.Flags(boy.Lcd()).battle)
    {
      ghost var was, back, pane := log, [], [];
      done := false;
      alive, back := FleeBack();
      asked := back;
      if !alive { return; }
      alive, done, pane := FleePane();
      if !alive { return; }
      asked := back + pane;
      BackThenPane(eyes, was, back, pane, log);
    }

    method FleeBack() returns (alive: bool, ghost asked: seq<Asked>)
      requires Valid()
      modifies this, boy, clock
      ensures boy.Valid() && boy.held == {}
      ensures alive ==> Valid() && Total(log) <= Total(old(log)) + 48
      ensures alive ==> log == old(log) + asked && |asked| == 2 && asked[0].seen == old(boy.Lcd())
      ensures alive ==> asked[0].ask == Tap([B], 12, 4) && asked[1].ask == WaitFor(32, Some(BattleGone()))
    {
      ghost var was, back, pause := log, Asked([], [], Tap([], 0, 0), [], 0), Asked([], [], Tap([], 0, 0), [], 0);
      asked := [];
      var advanced;
      alive, advanced, back := Add(Tap([B], 12, 4));
      if !alive { return; }
      alive, advanced, pause := Add(WaitFor(32, Some(BattleGone())));
      asked := [back, pause];
      assert alive ==> log == was + asked;
    }

    /** The way to the last command, if there is a pane. */
    method FleePath() returns (alive: bool, ghost asked: seq<Asked>)
      requires Valid()
      modifies this, boy, clock
      ensures boy.Valid() && boy.held == {}
      ensures alive ==> Valid() && Total(log) <= Total(old(log)) + 48 && log == old(log) + asked
      ensures alive ==> if eyes.PaneVisible(old(boy.Lcd())) then PathAsked(eyes, old(boy.Lcd()), asked)
                        else asked == [] && boy.Lcd() == old(boy.Lcd())
    {
      asked := [];
      var frame := boy.CaptureNative();
      if !eyes.PaneVisible(frame) {
        return true, [];
      }
      var path := eyes.Path(frame);
      ShortTap(path);
      var advanced;
      ghost var a;
      alive, advanced, a := Add(Tap(path, 12, 4));
      asked := [a];
    }

    method FleePane() returns (alive: bool, done: bool, ghost asked: seq<Asked>)
      requires Valid()
      modifies this, boy, clock
      ensures boy.Valid() && boy.held == {}
      ensures alive ==> Valid() && Total(log) <= Total(old(log)) + 144
      ensures alive ==> log == old(log) + asked && FleePaneAsked(eyes, asked)
      ensures alive ==> (done <==> !eyes.Flags(boy.Lcd()).battle)
    {
      ghost var was, lcd, path, a := log, boy.Lcd(), [], Asked([], [], Tap([], 0, 0), [], 0);
      asked, done := [], false;
      alive, path := FleePath();
      if !alive { return; }
      var advanced;
      alive, advanced, a := Add(WaitFor(96, Some(UntilOf(Overworld, 4))));
      if !alive { return; }
      asked := path + [a];
      PathThenWait(eyes, was, lcd, path, a, log);
      var flags := Look();
      done := !flags.battle;
    }
  }

  lemma {:induction false} ShortTap(path: seq<Button>)
    requires 1 <= |path| <= 3
    ensures AskOk(Tap(path, 12, 4)) && MostFrames(Tap(path, 12, 4)) <= 48
  {
  }

  lemma {:induction false} TurnBudget(left: nat, advanced: nat, settled: nat)
    requires 0 < left <= BATTLE_TURN_FRAME_CAP && advanced <= MashFrames(Min(240, left)) + 12
    requires settled <= Max(0, Min(180, left - advanced))
    ensures advanced + settled <= left + 27
  {
  }

  function MashFrames(maxFrames: nat): nat { Max(16, Min(maxFrames, MAX_FRAMES_PER_CALL)) }

  // ---------------------------------------------------------------------------------------------
  // What the intents ask for, given what they see

  predicate MashesText(a: Asked) { a.ask.MashA? && a.ask.stop == TextboxUntil(Disappears) }

  /** Text is mashed away; without text there is only waiting. */
  predicate AdvanceAsk(eyes: Eyes, a: Asked) {
    if eyes.Flags(a.seen).textbox then MashesText(a)
    else a.ask.WaitFor? && a.ask.until == None && a.ask.frames <= ADVANCE_EVAL_FRAMES
  }

  predicate TurnEventReady(eyes: Eyes, f: Frame) {
    eyes.PaneVisible(f) || eyes.Flags(f).textbox || !eyes.Flags(f).battle || eyes.Flags(f).occluded
  }

  /** Short waits, as long as nothing needs an answer. */
  predicate WaitAsk(eyes: Eyes, a: Asked) {
    !TurnEventReady(eyes, a.seen) && a.ask.WaitFor? && a.ask.until == None && a.ask.frames <= 8
  }

  predicate WaitAsks(eyes: Eyes, asked: seq<Asked>) { forall i :: 0 <= i < |asked| ==> WaitAsk(eyes, asked[i]) }

  /** Text is mashed away, a battle without text gets one A, and between the two there are waits. */
  predicate BattleAsk(eyes: Eyes, a: Asked) {
    || (eyes.Flags(a.seen).textbox && MashesText(a))
    || (eyes.Flags(a.seen).battle && !eyes.Flags(a.seen).textbox && a.ask == Tap([A], 12, 4))
    || WaitAsk(eyes, a)
  }

  predicate BattleAsks(eyes: Eyes, asked: seq<Asked>) { forall i :: 0 <= i < |asked| ==> BattleAsk(eyes, asked[i]) }

  /** The way to the last command if there is a pane, and a wait for the world. */
  predicate FleePaneAsked(eyes: Eyes, asked: seq<Asked>) {
    && 1 <= |asked| <= 2
    && (|asked| == 2 <==> eyes.PaneVisible(asked[0].seen))
    && (|asked| == 2 ==> asked[0].ask == Tap(eyes.Path(asked[0].seen), 12, 4))
    && asked[|asked| - 1].ask == WaitFor(96, Some(UntilOf(Overworld, 4)))
  }

  predicate PathAsked(eyes: Eyes, lcd: Frame, asked: seq<Asked>) {
    |asked| == 1 && asked[0].seen == lcd && asked[0].ask == Tap(eyes.Path(lcd), 12, 4)
  }

  lemma {:induction false} PathThenWait(eyes: Eyes, was: seq<Asked>, lcd: Frame, path: seq<Asked>, a: Asked,
                                        now: seq<Asked>)
    requires if eyes.PaneVisible(lcd) then PathAsked(eyes, lcd, path) else path == [] && a.seen == lcd
    requires a.ask == WaitFor(96, Some(UntilOf(Overworld, 4))) && now == was + path + [a]
    ensures now == was + (path + [a]) && FleePaneAsked(eyes, path + [a])
  {
  }

  /** B, a wait, and then the pane. */
  predicate FleeKeysAsked(eyes: Eyes, asked: seq<Asked>) {
    && |asked| > 2 && asked[0].ask == Tap([B], 12, 4) && asked[1].ask == WaitFor(32, Some(BattleGone()))
    && FleePaneAsked(eyes, asked[2..])
  }

  /** A battle, the start menu or a command pane is up. */
  predicate StillFighting(eyes: Eyes, f: Frame) {
    eyes.Flags(f).battle || eyes.Flags(f).menu || eyes.PaneVisible(f)
  }

  /** One attempt to flee: text first, if there is any, and then the keys unless text was all there was. */
  predicate FleeAsks(eyes: Eyes, asked: seq<Asked>) {
    if asked == [] || !eyes.Flags(asked[0].seen).textbox then FleeKeysAsked(eyes, asked)
    else
      && MashesText(asked[0])
      && (|asked| == 1 || (StillFighting(eyes, asked[1].seen) && FleeKeysAsked(eyes, asked[1..])))
  }

  lemma {:induction false} FleeJoins(eyes: Eyes, was: seq<Asked>, text: Asked, keys: seq<Asked>, now: seq<Asked>)
    requires MashesText(text) && eyes.Flags(text.seen).textbox && now == was + [text] + keys
    requires FleeKeysAsked(eyes, keys) && StillFighting(eyes, keys[0].seen)
    ensures now == was + ([text] + keys) && FleeAsks(eyes, [text] + keys)
    ensures ([text] + keys)[0] == text && |[text] + keys| > 1
  {
    assert ([text] + keys)[1..] == keys;
  }

  lemma {:induction false} BackThenPane(eyes: Eyes, was: seq<Asked>, back: seq<Asked>, pane: seq<Asked>,
                                        now: seq<Asked>)
    requires |back| == 2 && back[0].ask == Tap([B], 12, 4) && back[1].ask == WaitFor(32, Some(BattleGone()))
    requires FleePaneAsked(eyes, pane) && now == was + back + pane
    ensures now == was + (back + pane) && FleeKeysAsked(eyes, back + pane) && (back + pane)[0] == back[0]
  {
    assert (back + pane)[2..] == pane;
  }

  /** No attempt, one, or two with the battle still on in between; the first one made `first` calls. */
  predicate FleeLog(eyes: Eyes, log: seq<Asked>, first: nat, attempts: nat) {
    if attempts == 0 then log == [] && first == 0
    else if attempts == 1 then first == |log| && FleeAsks(eyes, log)
    else
      && first < |log| && FleeAsks(eyes, log[..first]) && eyes.Flags(log[first].seen).battle
      && FleeAsks(eyes, log[first..])
  }

  lemma {:induction false} FleeLogGrows(eyes: Eyes, log: seq<Asked>, first: nat, attempts: nat, more: seq<Asked>)
    requires attempts < 2 && FleeLog(eyes, log, first, attempts) && FleeAsks(eyes, more)
    requires attempts == 1 ==> eyes.Flags(more[0].seen).battle
    ensures FleeLog(eyes, log + more, if attempts == 0 then |more| else first, attempts + 1)
  {
    assert attempts == 0 ==> log + more == more;
    assert attempts == 1 ==> (log + more)[..first] == log && (log + more)[first..] == more;
  }

  // ---------------------------------------------------------------------------------------------
  // The intents

  /** What every intent keeps: the buttons are let go, a chain of engine calls accounts for everything
      played, and the frames reported are theirs, and no more than `most`. */
  ghost predicate IntentDone(ran: Asked -> bool, before: Frame, boy: PyBoy, r: PlayResult, log: seq<Asked>, most: int)
    reads boy
  {
    && boy.Valid() && boy.held == {}
    && (r.Finished? ==>
          && r.framesAdvanced == Total(log) <= most
          && log != [] && Chain(ran, before, log, boy.frames))
  }

  /** Over a finished intent the emulator plays the frames reported, and at most one more per call. */
  lemma {:induction false} IntentPlays(ran: Asked -> bool, eyes: Eyes, play: PlayInput, before: Frame, boy: PyBoy,
                                       r: PlayResult, log: seq<Asked>, most: int)
    requires IntentDone(ran, before, boy, r, log, most) && r.Finished?
    requires forall a :: ran(a) ==> AskRan(eyes, play, a)
    ensures |before| + r.framesAdvanced <= |boy.frames| <= |before| + r.framesAdvanced + |log|
    ensures r.framesAdvanced <= most
  {
    FramesAccounted(ran, eyes, play, before, log, boy.frames);
  }

  /** The last call made played nothing. */
  predicate NoProgress(log: seq<Asked>) { log != [] && log[|log| - 1].advanced == 0 }

  /** How many calls of a log are not waits. */
  function Answers(log: seq<Asked>): nat {
    if log == [] then 0
    else Answers(log[..|log| - 1]) + if log[|log| - 1].ask.WaitFor? then 0 else 1
  }

  lemma {:induction false} AnswersAppend(log: seq<Asked>, more: seq<Asked>)
    ensures Answers(log + more) == Answers(log) + Answers(more)
    decreases |more|
  {
    if more == [] {
      assert log + more == log;
    } else {
      assert (log + more)[..|log + more| - 1] == log + more[..|more| - 1];
      AnswersAppend(log, more[..|more| - 1]);
    }
  }

  /** One answer and the waits after it. */
  lemma {:induction false} AnswerAndWaits(eyes: Eyes, was: seq<Asked>, a: Asked, waits: seq<Asked>, now: seq<Asked>)
    requires BattleAsk(eyes, a) && !a.ask.WaitFor? && WaitAsks(eyes, waits) && now == was + [a] + waits
    ensures now == was + ([a] + waits) && BattleAsks(eyes, [a] + waits) && Answers([a] + waits) == 1
  {
    OneAnswer(a, waits);
  }

  lemma {:induction false} OneAnswer(a: Asked, waits: seq<Asked>)
    requires forall i :: 0 <= i < |waits| ==> waits[i].ask.WaitFor?
    ensures Answers([a] + waits) == if a.ask.WaitFor? then 0 else 1
    decreases |waits|
  {
    var all := [a] + waits;
    if waits == [] {
      assert all[..0] == [];
    } else {
      assert all[..|all| - 1] == [a] + waits[..|waits| - 1];
      OneAnswer(a, waits[..|waits| - 1]);
    }
  }

  /** The caller's frame budget as the intents read it. */
  function FrameBudget(play: PlayInput): nat {
    Min(MAX_FRAMES_PER_CALL, if play.maxFrames > 0 then play.maxFrames else MAX_FRAMES_PER_CALL)
  }

  /** A single wait and nothing else. */
  method BriefWait(boy: PyBoy, play: PlayInput, eyes: Eyes, clock: Clock, frames: nat, ghost ran: Asked -> bool)
    returns (r: PlayResult, ghost log: seq<Asked>)
    requires boy.Valid() && boy.held == {} && Sound(ran, eyes, play) && 1 <= frames <= MAX_FRAMES_PER_CALL
    modifies boy, clock
    ensures IntentDone(ran, old(boy.frames), boy, r, log, frames)
    ensures r.Finished? ==> |log| == 1 && log[0].seen == old(boy.Lcd()) && log[0].ask == WaitFor(frames, None)
  {
    var run := new IntentRun(boy, clock, eyes, play, ran);
    var alive, advanced;
    ghost var a;
    alive, advanced, a := run.Add(WaitFor(frames, None));
    if !alive { return EmulatorDied, []; }
    r := Merge(run.parts);
    log := run.log;
  }

  /** Why the text intent ended: none came up, it has been gone for three looks, the frames are used
      up (an idle call counting as one), or a mash made no progress. */
  datatype AdvanceEnd = NoText | Gone | Spent | Stalled

  /** Without text at first, one long wait for it; then text is mashed away. */
  ghost predicate AdvanceAsks(eyes: Eyes, log: seq<Asked>) {
    log != [] &&
    var first := if eyes.Flags(log[0].seen).textbox then 0 else 1;
    && (first == 1 ==> log[0].ask == WaitFor(ADVANCE_WAIT_FRAMES, Some(TextboxUntil(Appears))))
    && forall i :: first <= i < |log| ==> AdvanceAsk(eyes, log[i])
  }

  lemma {:induction false} AdvanceAsksSnoc(eyes: Eyes, log: seq<Asked>, a: Asked)
    requires AdvanceAsk(eyes, a)
    requires if log == [] then eyes.Flags(a.seen).textbox else AdvanceAsks(eyes, log)
    ensures AdvanceAsks(eyes, log + [a])
  {
  }

  /** Mashes A while text is shown, and waits until it has been gone for three looks. */
  method AdvanceText(boy: PyBoy, play: PlayInput, eyes: Eyes, clock: Clock, ghost ran: Asked -> bool)
    returns (r: PlayResult, ghost log: seq<Asked>, ghost why: AdvanceEnd)
    requires boy.Valid() && boy.held == {} && Sound(ran, eyes, play)
    modifies boy, clock
    ensures IntentDone(ran, old(boy.frames), boy, r, log, Max(ADVANCE_WAIT_FRAMES, FrameBudget(play) + 27))
    ensures r.Finished? ==> AdvanceAsks(eyes, log)
    ensures r.Finished? && (why.NoText? || why.Gone?) ==> !eyes.Flags(boy.Lcd()).textbox
    ensures r.Finished? && why.Spent? ==> Total(log) + |log| >= FrameBudget(play)
    ensures r.Finished? && why.Stalled? ==> NoProgress(log)
  {
    why := NoText;
    var run := new IntentRun(boy, clock, eyes, play, ran);
    var alive, advanced := true, 0;
    ghost var a;
    var flags := run.Look();
    if !flags.textbox {
      alive, advanced, a := run.Add(WaitFor(ADVANCE_WAIT_FRAMES, Some(TextboxUntil(Appears))));
      if !alive { return EmulatorDied, [], why; }
      flags := run.Look();
      if !flags.textbox {
        r := Merge(run.parts);
        return r, run.log, NoText;
      }
    }
    alive, why := run.AdvanceThrough(FrameBudget(play), advanced);
    if !alive { return EmulatorDied, [], why; }
    r := Merge(run.parts);
    log := run.log;
  }

  /** Waits in short slices until something in the battle needs an answer, within a budget that may
      already be spent. */
  method WaitTurnEvent(boy: PyBoy, play: PlayInput, eyes: Eyes, clock: Clock, budget: int, ghost ran: Asked -> bool)
    returns (r: PlayResult, ghost log: seq<Asked>)
    requires boy.Valid() && boy.held == {} && Sound(ran, eyes, play)
    modifies boy, clock
    ensures boy.Valid() && boy.held == {}
    ensures r.Finished? ==>
              && r.framesAdvanced == Total(log) <= Max(0, budget)
              && Chain(ran, old(boy.frames), log, boy.frames)
              && WaitAsks(eyes, log)
    ensures r.Finished? ==> TurnEventReady(eyes, boy.Lcd()) || Total(log) >= budget || NoProgress(log)
  {
    var run := new IntentRun(boy, clock, eyes, play, ran);
    var used := 0;
    while used < budget
      invariant run.For(boy, clock, eyes, play, ran, old(boy.frames)) && fresh(run)
      invariant Total(run.log) == used <= Max(0, budget)
      invariant WaitAsks(eyes, run.log)
    {
      var ready := run.Ready();
      if ready { break; }
      var alive, advanced;
      ghost var a;
      alive, advanced, a := run.Add(WaitFor(Min(8, budget - used), None));
      if !alive { return EmulatorDied, []; }
      used := used + advanced;
      if advanced <= 0 { break; }
      ready := run.Ready();
      if ready { break; }
    }
    r := Merge(run.parts);
    log := run.log;
  }

  /** Plays a battle forward: mashes text, confirms with A, and waits for the next event, while the
      frame cap is not reached. */
  method BattleTurn(boy: PyBoy, play: PlayInput, eyes: Eyes, clock: Clock, ghost ran: Asked -> bool)
    returns (r: PlayResult, ghost log: seq<Asked>)
    requires boy.Valid() && boy.held == {} && Sound(ran, eyes, play)
    modifies boy, clock
    ensures IntentDone(ran, old(boy.frames), boy, r, log, BATTLE_TURN_FRAME_CAP + 27)
    ensures r.Finished? ==>
              if !eyes.Flags(old(boy.Lcd())).battle then |log| == 1 && log[0].ask == WaitFor(6, None)
              else
                && BattleAsks(eyes, log) && Answers(log) <= BATTLE_TURN_ITERS
                && (|| (!eyes.Flags(boy.Lcd()).battle && !eyes.Flags(boy.Lcd()).textbox)
                    || Total(log) >= BATTLE_TURN_FRAME_CAP || Answers(log) == BATTLE_TURN_ITERS)
  {
    var run := new IntentRun(boy, clock, eyes, play, ran);
    var flags := run.Look();
    if !flags.battle {
      r, log := BriefWait(boy, play, eyes, clock, 6, ran);
      return;
    }
    var total := 0;
    var i := 0;
    while i < BATTLE_TURN_ITERS
      invariant run.For(boy, clock, eyes, play, ran, old(boy.frames)) && fresh(run)
      invariant Total(run.log) == total <= BATTLE_TURN_FRAME_CAP + 27
      invariant 0 <= i <= BATTLE_TURN_ITERS && (run.log == [] ==> i == 0 && eyes.Flags(boy.Lcd()).battle)
      invariant BattleAsks(eyes, run.log) && Answers(run.log) == i
      decreases BATTLE_TURN_ITERS - i
    {
      if total >= BATTLE_TURN_FRAME_CAP { break; }
      flags := run.Look();
      if !flags.battle && !flags.textbox { break; }
      ghost var before := run.log;
      var alive, advanced;
      ghost var asked;
      alive, advanced, asked := run.BattleOnce(flags.textbox, BATTLE_TURN_FRAME_CAP - total);
      if !alive { return EmulatorDied, []; }
      AnswersAppend(before, asked);
      total := total + advanced;
      flags := run.Look();
      if !flags.battle && !flags.textbox { break; }
      i := i + 1;
    }
    r := Merge(run.parts);
    log := run.log;
  }

  /** Mashes through a battle in one call, and says whether it is over. */
  method BattleUntilOverworld(boy: PyBoy, play: PlayInput, eyes: Eyes, clock: Clock, ghost ran: Asked -> bool)
    returns (r: PlayResult, ghost log: seq<Asked>)
    requires boy.Valid() && boy.held == {} && Sound(ran, eyes, play)
    modifies boy, clock
    ensures IntentDone(ran, old(boy.frames), boy, r, log, MashFrames(FrameBudget(play)) + 12)
    ensures r.Finished? ==>
              var before, after := eyes.Flags(old(boy.Lcd())), eyes.Flags(boy.Lcd());
              var quiet := !before.battle && !before.textbox;
              && |log| == 1
              && log[0].ask == (if quiet then WaitFor(6, None)
                  else MashA(MashFrames(FrameBudget(play)), UntilOf(Overworld, 4)))
              && (r.stop == Decided("overworld") <==> quiet || (!after.battle && !after.textbox))
  {
    var run := new IntentRun(boy, clock, eyes, play, ran);
    var flags := run.Look();
    if !flags.battle && !flags.textbox {
      r, log := BriefWait(boy, play, eyes, clock, 6, ran);
      r := if r.Finished? then Stamp(r, "overworld") else r;
      return;
    }
    var alive, advanced;
    ghost var a;
    alive, advanced, a := run.Add(MashA(MashFrames(FrameBudget(play)), UntilOf(Overworld, 4)));
    if !alive { return EmulatorDied, []; }
    r := Merge(run.parts);
    flags := run.Look();
    var reason := if !flags.battle && !flags.textbox then "overworld"
                  else if r.stopDetail == Some("blocked") || r.stop == Decided("blocked") then "blocked"
                  else "cap";
    r, log := Stamp(r, reason), run.log;
  }

  function Stamp(r: PlayResult, reason: string): PlayResult
    requires r.Finished?
  {
    r.(stop := Decided(reason), stopDetail := Some(reason))
  }

  /** Start and A are tapped only while neither a menu nor text shows. */
  predicate SkipAsk(eyes: Eyes, a: Asked) {
    !eyes.Flags(a.seen).menu && !eyes.Flags(a.seen).textbox && a.ask == Tap([Button.Start, A], 4, 4)
  }

  /** The taps, and why they stopped: a menu or text shows, the frames are used up, or nothing moved. */
  ghost predicate Skipped(eyes: Eyes, log: seq<Asked>, lcd: Frame, cap: int) {
    && (forall i :: 0 <= i < |log| ==> SkipAsk(eyes, log[i]))
    && (eyes.Flags(lcd).menu || eyes.Flags(lcd).textbox || Total(log) >= cap || NoProgress(log))
  }

  /** Taps Start and A until a menu or text shows. */
  method SkipIntro(boy: PyBoy, play: PlayInput, eyes: Eyes, clock: Clock, ghost ran: Asked -> bool)
    returns (r: PlayResult, ghost log: seq<Asked>)
    requires boy.Valid() && boy.held == {} && Sound(ran, eyes, play)
    modifies boy, clock
    ensures IntentDone(ran, old(boy.frames), boy, r, log, Min(SKIP_INTRO_CAP, FrameBudget(play)) + 15)
    ensures r.Finished? ==>
              || Skipped(eyes, log, boy.Lcd(), Min(SKIP_INTRO_CAP, FrameBudget(play)))
              || (|log| == 1 && log[0].ask == WaitFor(6, None)
                  && (eyes.Flags(log[0].seen).menu || eyes.Flags(log[0].seen).textbox))
  {
    var run := new IntentRun(boy, clock, eyes, play, ran);
    var cap := Min(SKIP_INTRO_CAP, FrameBudget(play));
    var alive := run.TapThrough(cap);
    if !alive { return EmulatorDied, []; }
    if run.parts == [] {
      r, log := BriefWait(boy, play, eyes, clock, 6, ran);
      return;
    }
    r := Merge(run.parts);
    log := run.log;
  }

  /** The first direction asked for, up if there is none. */
  function DoorDirection(buttons: seq<Button>): (b: Button)
    ensures Directional(b)
    ensures (exists i: nat :: IsFirstDirection(buttons, i) && buttons[i] == b)
            || (b == Up && forall k :: k in buttons ==> !Directional(k))
  {
    if buttons == [] then Up
    else if Directional(buttons[0]) then
      assert IsFirstDirection(buttons, 0);
      buttons[0]
    else
      var b := DoorDirection(buttons[1..]);
      assert forall k :: k in buttons <==> k == buttons[0] || k in buttons[1..];
      FirstDirectionShifts(buttons);
      b
  }

  lemma {:induction false} FirstDirectionShifts(buttons: seq<Button>)
    requires buttons != [] && !Directional(buttons[0])
    ensures forall i: nat :: IsFirstDirection(buttons[1..], i) ==> IsFirstDirection(buttons, i + 1)
  {
  }

  predicate IsFirstDirection(buttons: seq<Button>, i: nat) {
    i < |buttons| && Directional(buttons[i]) && forall j :: 0 <= j < i ==> !Directional(buttons[j])
  }

  /** Holds towards a door, then waits for the world behind it. */
  method EnterDoor(boy: PyBoy, play: PlayInput, eyes: Eyes, clock: Clock, ghost ran: Asked -> bool)
    returns (r: PlayResult, ghost log: seq<Asked>)
    requires boy.Valid() && boy.held == {} && Sound(ran, eyes, play)
    modifies boy, clock
    ensures var budget := if play.maxFrames > 0 then play.maxFrames else MAX_FRAMES_PER_CALL;
            var hold, wait := Max(32, Min(budget, 360)), Max(32, Min(budget, MAX_FRAMES_PER_CALL));
            && IntentDone(ran, old(boy.frames), boy, r, log, hold + wait)
            && (r.Finished? ==>
                  && |log| == 2
                  && log[0].ask == HoldTo(DoorDirection(play.buttons), hold, UntilOf(LumaJump, 12))
                  && log[1].ask == WaitFor(wait, Some(UntilOf(Overworld, 4))))
  {
    var run := new IntentRun(boy, clock, eyes, play, ran);
    var direction := DoorDirection(play.buttons);
    var budget := if play.maxFrames > 0 then play.maxFrames else MAX_FRAMES_PER_CALL;
    var holdBudget := Max(32, Min(budget, 360));
    var fadeWait := Max(32, Min(budget, MAX_FRAMES_PER_CALL));
    var alive, advanced;
    ghost var a;
    alive, advanced, a := run.Add(HoldTo(direction, holdBudget, UntilOf(LumaJump, 12)));
    if !alive { return EmulatorDied, []; }
    alive, advanced, a := run.Add(WaitFor(fadeWait, Some(UntilOf(Overworld, 4))));
    if !alive { return EmulatorDied, []; }
    r := Merge(run.parts);
    log := run.log;
  }

  /** Tries twice to flee: clear text, back out with B, walk to the last command, wait for the world. The
      second attempt is made if and only if the first leaves the battle on. */
  method RunAway(boy: PyBoy, play: PlayInput, eyes: Eyes, clock: Clock, ghost ran: Asked -> bool)
    returns (r: PlayResult, ghost log: seq<Asked>, ghost first: nat)
    requires boy.Valid() && boy.held == {} && Sound(ran, eyes, play)
    modifies boy, clock
    ensures IntentDone(ran, old(boy.frames), boy, r, log, 888)
    ensures r.Finished? ==>
              var opening := eyes.Flags(old(boy.Lcd()));
              if !(opening.battle || opening.menu || opening.textbox) then
                |log| == 1 && log[0].ask == WaitFor(6, None)
              else
                || (FleeLog(eyes, log, first, 1) && !eyes.Flags(boy.Lcd()).battle)
                || FleeLog(eyes, log, first, 2)
  {
    first := 0;
    var run := new IntentRun(boy, clock, eyes, play, ran);
    var flags := run.Look();
    if !(flags.battle || flags.menu || flags.textbox) {
      r, log := BriefWait(boy, play, eyes, clock, 6, ran);
      return;
    }
    var attempt := 0;
    while attempt < 2
      invariant 0 <= attempt <= 2 && FleeLog(eyes, run.log, first, attempt)
      invariant run.For(boy, clock, eyes, play, ran, old(boy.frames)) && fresh(run)
      invariant Total(run.log) <= 444 * attempt
      invariant attempt == 1 ==> eyes.Flags(boy.Lcd()).battle
    {
      ghost var asked := run.log;
      var alive, done;
      ghost var more;
      alive, done, more := run.FleeOnce();
      if !alive { return EmulatorDied, [], 0; }
      FleeLogGrows(eyes, asked, first, attempt, more);
      first := if attempt == 0 then |more| else first;
      attempt := attempt + 1;
      if done { break; }
    }
    r := Merge(run.parts);
    log := run.log;
  }
}
