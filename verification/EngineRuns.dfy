/** What the log and the pictures of a whole call show: where a new chord goes unseen, where the last
    picture is an old one, and a call of each kind. */
module EngineRuns {
  import opened PlayTypes
  import opened Phases
  import opened Sampling
  import opened Screenshots
  import opened EngineReference
  import opened InputEngine
  import opened PlayCall

  /** The released gap renders its chord change exactly when there is none. */
  lemma {:induction false} GapAppended(loop: seq<Tick>, rest: seq<Tick>)
    requires ChangesRendered({}, loop) && GapTicks(rest)
    ensures ChangesRendered({}, loop + rest) <==> LastChord({}, loop) == {}
  {
    var all := loop + rest;
    assert all[|loop|] == rest[0] && rest[0] in rest;
    if LastChord({}, loop) == {} {
      ChangesAppend({}, loop, rest, {});
    } else {
      assert !ChangeRendered({}, all, |loop|);
    }
  }

  lemma {:induction false} TickAppended(loop: seq<Tick>, t: Tick)
    requires ChangesRendered({}, loop) && t.render
    ensures ChangesRendered({}, loop + [t])
  {
    forall i | 0 <= i < |loop| + 1 ensures ChangeRendered({}, loop + [t], i) {
      assert i < |loop| ==> ChangeRendered({}, loop, i);
    }
  }

  /** The first tick after every chord change of a finished call is rendered, unless a mash was fired
      while its button was down. */
  lemma {:induction false} ChordChangesSeen(c: Config, n: nat, added: seq<Tick>, inLoop: nat)
    requires c.Valid() && n <= c.Total() && Run(c, n).n == n && CallLog(c, Run(c, n), added, inLoop)
    ensures ChangesRendered({}, added) <==>
            !(Run(c, n).fired.Some? && c.mash && c.slots[n - 1].Chord() != {})
  {
    var loop, rest := added[..inLoop], added[inLoop..];
    assert added == loop + rest;
    if Run(c, n).fired.Some? && c.mash {
      GapAppended(loop, rest);
    } else if rest != [] {
      TickAppended(loop, TickCall(1, true, {}));
    } else {
      assert added == loop;
    }
  }

  /** In terms of the request: a mash's chord goes unseen if and only if it fires on one of the first
      `press` frames of a cycle. */
  lemma {:induction false} MashReleaseSeen(play: PlayInput, plan: Option<Wants>, decide: Option<Decide>,
                                           past: seq<Chord>, n: nat, added: seq<Tick>, inLoop: nat)
    requires play.macro == Mash && play.mashPressFrames + play.mashReleaseFrames > 0
    requires n <= Setup(play, plan, decide, past).Total() && Run(Setup(play, plan, decide, past), n).n == n
    requires Run(Setup(play, plan, decide, past), n).fired.Some?
    requires CallLog(Setup(play, plan, decide, past), Run(Setup(play, plan, decide, past), n), added, inLoop)
    ensures n > 0
    ensures ChangesRendered({}, added) <==>
            (n - 1) % (play.mashPressFrames + play.mashReleaseFrames) >= play.mashPressFrames
  {
    var c := Setup(play, plan, decide, past);
    ChordChangesSeen(c, n, added, inLoop);
    FlattenedSchedule(play, Budget(play), n - 1);
    MashHeld(play.mashButton, play.mashPressFrames, play.mashReleaseFrames, Budget(play), 0, n - 1);
    TruncateHeld(RawPhases(play, Budget(play)), Budget(play));
    ResidueIsMod(n - 1, play.mashPressFrames + play.mashReleaseFrames);
    assert Held(c.slots)[n - 1] == c.slots[n - 1].Chord();
  }

  /** The interrupt of a fired mash is its second to last record, and its only one. */
  lemma {:induction false} MashInterruptPlace(c: Config, n: nat, lcd: Frame)
    requires c.Valid() && c.plan.Some? && c.mash && n <= c.Total() && Run(c, n).n == n && Run(c, n).fired.Some?
    ensures var r := CallRecords(c, Run(c, n), lcd);
            |r| >= 2 && forall i :: 0 <= i < |r| ==> (r[i].interrupt <==> i == |r| - 2)
  {
    var o := Run(c, n);
    FirstDecision(c, n);
    RecordsOrdered(c, n);
    StopRecorded(c, n);
    forall i | 0 <= i < |o.records| ensures o.records[i].interrupt <==> i == |o.records| - 1 {
      assert RecordOk(c, o, o.records[i]);
    }
  }

  /** The last picture a timed-out call files is that of all frames played exactly when the frame it stopped
      at was due to be seen or began a new chord, or when no frame was due before it. */
  lemma {:induction false} TimedOutPicture(c: Config, play: PlayInput, phases: seq<Phase>, n: nat, r: PlayResult,
                                           boy: PyBoy, monitor: Monitor?, plan: ScreenshotPlan, clock: Clock,
                                           kept: seq<Shot>, lcd: Frame, from: nat, first: nat, inLoop: nat)
    requires c.Valid() && c.plan.Some? && n > 0 && r.Finished? && r.stop == CallTimeout
    requires CallDone(c, play, phases, n, r, boy, monitor, plan, clock, kept, lcd, from, first, inLoop)
    ensures plan.records != []
    ensures c.Picture(n) <= plan.records[|plan.records| - 1].frame <==>
            c.NeedsLcd(n) || c.ChordChanges(n) || !c.AnyLcd(n)
  {
    LatePictureIsCurrent(c, n, lcd);
  }

  // ---------------------------------------------------------------------------------------------
  // A call of each kind

  function Request(macro: Macro, steps: seq<InputStep>, frames: nat, mode: ShotMode): PlayInput {
    PlayInput(macro, steps, [], 1, A, 4, 4, frames, 0, 1, mode, 1, None, 4, false, false, map[], false, 90.0, frames,
              None, Extra(None, false, None))
  }

  /** A for six frames and B for four, looked at every fourth frame. */
  function TwoSteps(mode: ShotMode): PlayInput {
    Request(Steps, [InputStep([A], 6, 0, false), InputStep([B], 4, 0, false)], 10, mode)
  }

  function TwoPhases(): seq<Phase> { [Phase([A], 6, 0, true), Phase([B], 4, 1, true)] }

  lemma {:induction false} TwoStepsRaw(mode: ShotMode)
    ensures StepPhases(TwoSteps(mode).steps) == TwoPhases()
  {
    var steps, phases := TwoSteps(mode).steps, TwoPhases();
    assert steps[..1] == [steps[0]] && [steps[0]][..0] == [];
    assert StepPhases([steps[0]]) == [phases[0]];
  }

  function TwoSlots(): seq<Slot> {
    seq(10, i requires 0 <= i < 10 => if i < 6 then SlotOf(TwoPhases()[0], i) else SlotOf(TwoPhases()[1], i - 6))
  }

  /** Two phases laid out. */
  lemma {:induction false} PairLaidOut(a: Phase, b: Phase)
    ensures Frames([a, b]) == a.frames + b.frames
    ensures Slots([a, b]) ==
            seq(a.frames, j requires 0 <= j => SlotOf(a, j)) + seq(b.frames, j requires 0 <= j => SlotOf(b, j))
  {
    HeldSnoc([], a);
    HeldSnoc([a], b);
    assert [] + [a] == [a] && [a] + [b] == [a, b];
    assert Slots([]) == [];
  }

  lemma {:induction false} TwoRows(a: Phase, b: Phase)
    requires a == TwoPhases()[0] && b == TwoPhases()[1]
    ensures seq(6, j requires 0 <= j => SlotOf(a, j)) + seq(4, j requires 0 <= j => SlotOf(b, j)) == TwoSlots()
  {
  }

  lemma {:induction false} TwoStepsPhases(mode: ShotMode)
    ensures PhasesOf(TwoSteps(mode), 10) == Truncate(TwoPhases(), 10)
  {
    TwoStepsRaw(mode);
  }

  lemma {:induction false} TwoStepsSlots(mode: ShotMode)
    ensures Slots(PhasesOf(TwoSteps(mode), 10)) == TwoSlots()
  {
    var a, b := Phase([A], 6, 0, true), Phase([B], 4, 1, true);
    TwoStepsPhases(mode);
    PairLaidOut(a, b);
    TruncateFits([a, b], 10);
    TwoRows(a, b);
  }

  /** A call of that request, keeping the final picture or one of each step. */
  ghost predicate PlaysTwoSteps(c: Config) {
    && c.slots == TwoSlots() && c.interval == 4 && c.gap == 12 && (c.mode == Final || c.mode == All)
    && c.plan == Some(WantsFor(c.mode))
  }

  lemma {:induction false} TwoStepsSetup(mode: ShotMode, past: seq<Chord>)
    requires mode == Final || mode == All
    ensures PlaysTwoSteps(Setup(TwoSteps(mode), Some(WantsFor(mode)), None, past))
  {
    TwoStepsSlots(mode);
  }

  lemma {:induction false} TwoStepsDue(c: Config, n: nat)
    requires PlaysTwoSteps(c) && 0 < n <= 10
    ensures c.NeedsLcd(n) <==> n == 4 || n == 8 || n == 10 || (n == 6 && c.mode == All)
    ensures c.Shoots(n) <==> n == 10 || (n == 6 && c.mode == All)
    ensures c.slots[n - 1].last <==> n == 6 || n == 10
    ensures c.slots[n - 1].first <==> n == 1 || n == 7
  {
    var slot := if n <= 6 then SlotOf(TwoPhases()[0], n - 1) else SlotOf(TwoPhases()[1], n - 7);
    assert c.slots[n - 1] == TwoSlots()[n - 1] == slot;
    assert !c.Wanted(n);
  }

  /** Its chunks end at frames 4, 6, 8 and 10. */
  lemma {:induction false} TwoStepsTurns(c: Config, n: nat)
    requires PlaysTwoSteps(c) && n <= 10
    ensures Boundary(c, n) <==> n == 0 || n == 4 || n == 6 || n == 8 || n == 10
    ensures Turns(c, n) == if n < 4 then 0 else if n < 6 then 1 else n / 2 - 1
  {
    if n > 0 {
      TwoStepsDue(c, n);
      TwoStepsTurns(c, n - 1);
    }
  }

  /** When a call of it stops, if the clock runs out at its fifth reading. */
  lemma {:induction false} TwoStepsStop(c: Config, n: nat, stop: Stop, readings: nat)
    requires PlaysTwoSteps(c) && n <= 10 && Boundary(c, n) && ClockRead(stop, readings, Turns(c, n))
    requires if stop == CallTimeout then readings == 5 else readings <= 4 && n == 10
    ensures stop == CallTimeout && n == 6
  {
    TwoStepsTurns(c, n);
  }

  /** Its last record is then the picture of frame 4. */
  lemma {:induction false} TwoStepsLast(c: Config, lcd: Frame)
    requires PlaysTwoSteps(c) && c.mode == Final && c.decide.None?
    ensures var records := CallRecords(c, Run(c, 6), lcd);
            records != [] && records[|records| - 1] == Shot(6, c.Picture(4), false, true, None)
    ensures Run(c, 6).fired.None? && Played(c, Run(c, 6)) == c.Picture(6)
  {
    NothingDecides(c, 6);
    TwoStepsDue(c, 4);
    TwoStepsDue(c, 5);
    TwoStepsDue(c, 6);
    assert c.Composed(4) == 4 && c.Composed(5) == 4 && c.Composed(6) == 4;
    assert c.AnyLcd(6);
    assert c.Picture(6) + Repeat({}, 0) == c.Picture(6);
  }

  function RunsOutAtFive(): nat -> real { i => if i < 4 then 0.0 else 90.0 }

  lemma {:induction false} TwoStepsResult(c: Config, play: PlayInput, phases: seq<Phase>, n: nat, r: PlayResult,
                                          boy: PyBoy, plan: ScreenshotPlan, clock: Clock, inLoop: nat)
    requires PlaysTwoSteps(c) && c.decide.None? && c.past == [] && play.callTimeoutSeconds == 90.0 && r.Finished?
    requires clock.at == RunsOutAtFive()
    requires CallDone(c, play, phases, n, r, boy, null, plan, clock, [], [], 0, 0, inLoop)
    ensures r.stop == CallTimeout && r.framesAdvanced == 6 && plan.records == CallRecords(c, Run(c, 6), [])
    ensures boy.frames == Played(c, Run(c, 6))
  {
    NothingDecides(c, n);
    assert clock.at(4) == 90.0 && clock.at(0) == 0.0;
    TwoStepsStop(c, n, r.stop, clock.readings);
    assert [] + CallRecords(c, Run(c, 6), []) == CallRecords(c, Run(c, 6), []);
  }

  lemma {:induction false} StaleResult(c: Config, play: PlayInput, phases: seq<Phase>, n: nat, r: PlayResult,
                                       boy: PyBoy, plan: ScreenshotPlan, clock: Clock, inLoop: nat)
    requires PlaysTwoSteps(c) && c.mode == Final && c.decide.None? && c.past == [] && play.callTimeoutSeconds == 90.0
    requires r.Finished? && clock.at == RunsOutAtFive()
    requires CallDone(c, play, phases, n, r, boy, null, plan, clock, [], [], 0, 0, inLoop)
    ensures r.stop == CallTimeout && r.framesAdvanced == |boy.frames| == 6
    ensures plan.records != []
    ensures plan.records[|plan.records| - 1] == Shot(6, boy.frames[..4], false, true, None)
  {
    TwoStepsResult(c, play, phases, n, r, boy, plan, clock, inLoop);
    TwoStepsLast(c, []);
    assert c.Picture(6)[..4] == c.Picture(4);
  }

  /** With the clock running out at its fifth reading the call stops at frame 6, and files as its final
      picture the one of frame 4. */
  method StaleFinalPicture() returns (r: PlayResult, filed: Shot, played: Frame)
    ensures r.Finished? && r.stop == CallTimeout && r.framesAdvanced == |played| == 6
    ensures filed == Shot(6, played[..4], false, true, None)
  {
    var boy := new PyBoy(i => true);
    var clock := new Clock(RunsOutAtFive());
    var plan := new ScreenshotPlan(Final);
    TwoStepsSetup(Final, boy.frames);
    var play := TwoSteps(Final);
    ghost var c, n, inLoop := Setup(play, WantsOf(plan), DecideOf(null), boy.frames), 0, 0;
    r, n, inLoop := RunPlayInput(boy, play, null, plan, clock);
    StaleResult(c, play, PhasesOf(play, Budget(play)), n, r, boy, plan, clock, inLoop);
    filed, played := plan.records[|plan.records| - 1], boy.frames;
  }

  /** A call whose monitor decides at once stops at its first evaluation. */
  lemma {:induction false} FirstLookStops(c: Config, n: nat, d: Decision)
    requires c.Valid() && c.interval == 4 && n <= c.Total() && c.Total() > 4 && Run(c, n).n == n
    requires c.decide == Some((seen: seq<Frame>) => Some(d))
    requires Run(c, n).fired.None? ==> n == c.Total()
    ensures n == 4 && Run(c, n).fired == Some(d)
  {
    assert !c.IsEval(1) && !c.IsEval(2) && !c.IsEval(3) && c.IsEval(4);
    assert Run(c, 0).fired.None? && Run(c, 1).fired.None? && Run(c, 2).fired.None? && Run(c, 3).fired.None?;
    assert Run(c, 4) == Step(c, Run(c, 3)) && Run(c, 4).fired == Some(d);
    if n > 4 {
      DecisionEnds(c, 4, n);
    }
  }

  lemma {:induction false} MashResult(c: Config, play: PlayInput, phases: seq<Phase>, n: nat, r: PlayResult, boy: PyBoy,
                                      monitor: Monitor, clock: Clock, inLoop: nat, d: Decision)
    requires play == Request(Mash, [], 16, Final) && c == Setup(play, None, Some(monitor.decide), []) && r.Finished?
    requires monitor.decide == ((seen: seq<Frame>) => Some(d)) && clock.at == (i => 0.0)
    requires CallDone(c, play, phases, n, r, boy, monitor, null, clock, [], [], 0, 0, inLoop)
    ensures r.stop == Decided(d.reason) && r.framesAdvanced == 16 && !ChangesRendered({}, boy.ticks)
  {
    FlattenedSchedule(play, 16, 0);
    assert clock.at(clock.readings - 1) == 0.0;
    FirstLookStops(c, n, d);
    assert boy.ticks[0..] == boy.ticks;
    MashReleaseSeen(play, None, Some(monitor.decide), [], n, boy.ticks, inLoop);
  }

  /** A mash looked at after four frames, while its button is down, and stopped there: twelve released
      frames follow, the first of them unseen. */
  method UnrenderedRelease() returns (r: PlayResult, ticks: seq<Tick>)
    ensures r.Finished? && r.stop == Decided("seen") && r.framesAdvanced == 4 + 12
    ensures !ChangesRendered({}, ticks)
  {
    var boy := new PyBoy(i => true);
    var clock := new Clock(i => 0.0);
    var d := Decision("seen", true, None);
    var monitor := new Monitor((seen: seq<Frame>) => Some(d));
    var play := Request(Mash, [], 16, Final);
    ghost var c, n, inLoop := Setup(play, WantsOf(null), DecideOf(monitor), []), 0, 0;
    r, n, inLoop := RunPlayInput(boy, play, monitor, null, clock);
    ticks := boy.ticks;
    MashResult(c, play, PhasesOf(play, 16), n, r, boy, monitor, clock, inLoop, d);
  }
}
