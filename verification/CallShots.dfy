/** What mode "all" hands back of a whole call: whether the interrupt is among it, and whether only one
    shot is labelled final. */
module CallShots {
  import opened PlayTypes
  import opened Phases
  import opened Sampling
  import opened Screenshots
  import opened EngineReference
  import opened InputEngine
  import opened PlayCall
  import opened EngineRuns

  /** The interrupt of a fired mash is among the shots kept if and only if at most forty-four were taken. */
  lemma {:induction false} MashInterruptKept(c: Config, n: nat, lcd: Frame)
    requires c.Valid() && c.plan.Some? && c.mash && n <= c.Total() && Run(c, n).n == n && Run(c, n).fired.Some?
    ensures var r := CallRecords(c, Run(c, n), lcd);
            (exists i :: 0 <= i < |AllKept(r)| && AllKept(r)[i].interrupt) <==> |r| <= 44
  {
    var r := CallRecords(c, Run(c, n), lcd);
    MashInterruptPlace(c, n, lcd);
    SecondToLastIsKept(|r|);
    if |r| <= 44 {
      var i :| 0 <= i < KeptCount(|r|) && KeptIndex(i, |r|) == |r| - 2;
      assert AllKept(r)[i].interrupt;
    }
  }

  /** A shot other than the last, of the frame of the last and not the interrupt. */
  predicate Doubled(shots: seq<Shot>, i: nat) {
    i < |shots| - 1 && !shots[i].interrupt && shots[i].frameIndex == shots[|shots| - 1].frameIndex
  }

  /** When the loop has already filed the frame an undecided call stops at. */
  ghost predicate FiledBefore(c: Config, n: nat)
    requires c.Valid() && n <= c.Total()
  {
    Run(c, n).fired.None? && 0 < n < c.Total() && c.Shoots(n)
  }

  lemma {:induction false} LoopRecordAt(c: Config, n: nat, i: nat)
    requires c.Valid() && c.plan.Some? && n <= c.Total() && Run(c, n).fired.None? && i < |Run(c, n).records|
    ensures Run(c, n).records[i].frameIndex == n <==> i == |Run(c, n).records| - 1 && n > 0 && c.Shoots(n)
    ensures 0 < Run(c, n).records[i].frameIndex <= n && !Run(c, n).records[i].interrupt
  {
    RecordsOrdered(c, n);
    assert RecordOk(c, Run(c, n), Run(c, n).records[i]);
    var before := Run(c, n - 1);
    RecordsOrdered(c, n - 1);
    assert forall j :: 0 <= j < |before.records| ==> RecordOk(c, before, before.records[j]);
  }

  lemma {:induction false} ShotFiled(c: Config, n: nat)
    requires c.Valid() && c.plan.Some? && 0 < n <= c.Total() && Run(c, n).fired.None? && c.Shoots(n)
    ensures Run(c, n).records != []
  {
  }

  /** Of the records of a call only the second to last can stand at the frame of the last, and it does
      when the loop had filed that frame. */
  lemma {:induction false} DoubledRecord(c: Config, n: nat, lcd: Frame, i: nat)
    requires c.Valid() && c.plan.Some? && n <= c.Total() && Run(c, n).n == n
    requires i < |CallRecords(c, Run(c, n), lcd)|
    ensures var r := CallRecords(c, Run(c, n), lcd); Doubled(r, i) <==> i == |r| - 2 && FiledBefore(c, n)
  {
    OneFinalRecord(c, n, lcd);
    var o, r := Run(c, n), CallRecords(c, Run(c, n), lcd);
    if LateFinal(c, o) {
      assert r[..|r| - 1] == o.records;
      if i < |o.records| {
        LoopRecordAt(c, n, i);
      }
      if FiledBefore(c, n) {
        ShotFiled(c, n);
      }
    } else if i < |r| - 1 {
      EarlierShots(c, n, lcd, i);
    }
  }

  lemma {:induction false} EarlierShots(c: Config, n: nat, lcd: Frame, i: nat)
    requires c.Valid() && c.plan.Some? && n <= c.Total() && Run(c, n).n == n && !LateFinal(c, Run(c, n))
    requires i < |CallRecords(c, Run(c, n), lcd)| - 1
    ensures var r := CallRecords(c, Run(c, n), lcd); r[i].frameIndex < r[|r| - 1].frameIndex
  {
    var o := Run(c, n);
    RecordsOrdered(c, n);
    OneFinalRecord(c, n, lcd);
    if i < |o.records| {
      assert RecordOk(c, o, o.records[i]);
    }
  }

  /** What is handed back of a whole call, labelled as mode "all" labels it. */
  predicate HandedBack(labeled: seq<Labeled>, records: seq<Shot>)
    requires records != []
  {
    && ShotsOf(labeled) == AllKept(records)
    && forall i :: 0 <= i < |labeled| ==> AllLabelled(labeled[i], records[|records| - 1].frameIndex)
  }

  lemma {:induction false} HandedBackEnds(labeled: seq<Labeled>, records: seq<Shot>)
    requires records != [] && HandedBack(labeled, records)
    requires forall i :: 0 <= i < |records| ==> (records[i].final <==> i == |records| - 1)
    ensures labeled != [] && labeled[|labeled| - 1].shot == records[|records| - 1]
    ensures forall i :: 0 <= i < |labeled| ==> (labeled[i].shot.final <==> i == |labeled| - 1)
  {
    forall i | 0 <= i < |labeled|
      ensures labeled[i].shot.final <==> i == |labeled| - 1
      ensures i == |labeled| - 1 ==> labeled[i].shot == records[|records| - 1]
    {
      KeptLast(i, |records|);
      assert ShotsOf(labeled)[i] == records[KeptIndex(i, |records|)];
    }
  }

  /** Only the last shot is labelled final, unless the call ended undecided at a frame the loop had filed
      and at most forty-four shots were taken. */
  lemma {:induction false} AllLabelsFit(c: Config, n: nat, lcd: Frame, labeled: seq<Labeled>)
    requires c.Valid() && c.plan.Some? && n <= c.Total() && Run(c, n).n == n
    requires CallRecords(c, Run(c, n), lcd) != [] && HandedBack(labeled, CallRecords(c, Run(c, n), lcd))
    ensures KindsFit(labeled) <==> !(FiledBefore(c, n) && |CallRecords(c, Run(c, n), lcd)| <= 44)
  {
    var r := CallRecords(c, Run(c, n), lcd);
    var last := r[|r| - 1].frameIndex;
    OneFinalRecord(c, n, lcd);
    HandedBackEnds(labeled, r);
    AllKindsFit(labeled, last);
    forall i | 0 <= i < |labeled| - 1
      ensures labeled[i].shot.interrupt || labeled[i].shot.frameIndex != last <==>
              !(KeptIndex(i, |r|) == |r| - 2 && FiledBefore(c, n))
    {
      KeptLast(i, |r|);
      assert ShotsOf(labeled)[i] == r[KeptIndex(i, |r|)];
      DoubledRecord(c, n, lcd, KeptIndex(i, |r|));
    }
    if FiledBefore(c, n) {
      assert |r| >= 2 by { ShotFiled(c, n); }
      SecondToLastIsKept(|r|);
      if |r| <= 44 {
        var i :| 0 <= i < KeptCount(|r|) && KeptIndex(i, |r|) == |r| - 2;
        KeptLast(i, |r|);
        assert !(labeled[i].shot.interrupt || labeled[i].shot.frameIndex != last);
      }
    }
  }

  // ---------------------------------------------------------------------------------------------
  // A call of each kind

  /** Two steps, one picture of each, timed out at the end of the first: its last frame is filed twice. */
  lemma {:induction false} TwoStepsBoth(c: Config, n: nat)
    requires PlaysTwoSteps(c) && c.mode == All && c.decide.None? && n <= 6
    ensures Run(c, n).fired.None?
    ensures Run(c, n).records == if n < 6 then [] else [Shot(6, c.Picture(6), false, false, Some(0))]
  {
    NothingDecides(c, n);
    if n > 0 {
      TwoStepsBoth(c, n - 1);
      TwoStepsDue(c, n);
      assert c.slots[n - 1] == TwoSlots()[n - 1] == SlotOf(TwoPhases()[0], n - 1);
    }
  }

  lemma {:induction false} FiledTwice(c: Config, lcd: Frame)
    requires PlaysTwoSteps(c) && c.mode == All && c.decide.None?
    ensures CallRecords(c, Run(c, 6), lcd)
            == [Shot(6, c.Picture(6), false, false, Some(0)), Shot(6, c.Picture(6), false, true, None)]
    ensures Played(c, Run(c, 6)) == c.Picture(6)
  {
    TwoStepsBoth(c, 6);
    TwoStepsDue(c, 6);
    assert c.Composed(6) == 6 && c.AnyLcd(6);
    assert c.Picture(6) + Repeat({}, 0) == c.Picture(6);
  }

  lemma {:induction false} TwiceResult(c: Config, play: PlayInput, phases: seq<Phase>, n: nat, r: PlayResult,
                                       boy: PyBoy, plan: ScreenshotPlan, clock: Clock, inLoop: nat)
    requires PlaysTwoSteps(c) && c.mode == All && c.decide.None? && c.past == [] && play.callTimeoutSeconds == 90.0
    requires r.Finished? && clock.at == RunsOutAtFive()
    requires CallDone(c, play, phases, n, r, boy, null, plan, clock, [], [], 0, 0, inLoop)
    ensures r.stop == CallTimeout && r.framesAdvanced == 6
    ensures plan.records == [Shot(6, boy.frames, false, false, Some(0)), Shot(6, boy.frames, false, true, None)]
  {
    TwoStepsResult(c, play, phases, n, r, boy, plan, clock, inLoop);
    FiledTwice(c, []);
  }

  lemma {:induction false} BothLabelledFinal(labeled: seq<Labeled>, a: Shot, b: Shot)
    requires !a.interrupt && !b.interrupt && b.final && a.frameIndex == b.frameIndex && HandedBack(labeled, [a, b])
    ensures labeled == [Labeled(a, FinalShot), Labeled(b, FinalShot)]
  {
    assert KeptIndex(0, 2) == 0 && KeptIndex(1, 2) == 1 && KeptCount(2) == 2;
    assert ShotsOf(labeled)[0] == a && ShotsOf(labeled)[1] == b;
    assert AllLabelled(labeled[0], b.frameIndex) && AllLabelled(labeled[1], b.frameIndex);
  }

  /** Two shots of one call are labelled final. */
  method TwoFinalShots() returns (r: PlayResult, labeled: seq<Labeled>)
    ensures r.Finished? && r.stop == CallTimeout && r.framesAdvanced == 6
    ensures |labeled| == 2 && labeled[0].kind == labeled[1].kind == FinalShot
    ensures labeled[0].shot.frameIndex == labeled[1].shot.frameIndex == 6
  {
    var boy := new PyBoy(i => true);
    var clock := new Clock(RunsOutAtFive());
    var plan := new ScreenshotPlan(All);
    TwoStepsSetup(All, boy.frames);
    var play := TwoSteps(All);
    ghost var c, n, inLoop := Setup(play, WantsOf(plan), DecideOf(null), boy.frames), 0, 0;
    r, n, inLoop := RunPlayInput(boy, play, null, plan, clock);
    TwiceResult(c, play, PhasesOf(play, Budget(play)), n, r, boy, plan, clock, inLoop);
    var subsampled;
    labeled, subsampled := plan.SelectAll();
    BothLabelledFinal(labeled, plan.records[0], plan.records[1]);
  }

  /** A mash that changes its chord on every frame and looks after every fifteenth. */
  function QuickMash(): PlayInput {
    Request(Mash, [], 120, All).(mashPressFrames := 1, mashReleaseFrames := 1, untilEvalInterval := 15)
  }

  /** Phases of one frame each, all of them reported. */
  predicate OneFrameEach(phases: seq<Phase>) { forall p :: p in phases ==> p.frames == 1 && p.report }

  lemma {:induction false} QuickPhases(button: Button, remaining: nat, index: nat)
    ensures OneFrameEach(MashFrom(button, 1, 1, remaining, index))
    decreases remaining
  {
    if remaining >= 2 {
      QuickPhases(button, remaining - 2, index + 2);
    }
  }

  lemma {:induction false} CutPhases(raw: seq<Phase>, budget: nat)
    requires OneFrameEach(raw)
    ensures OneFrameEach(Truncate(raw, budget))
  {
    if raw != [] {
      var rest, p := raw[..|raw| - 1], raw[|raw| - 1];
      assert p in raw && forall q :: q in rest ==> q in raw;
      CutPhases(rest, budget);
    }
  }

  lemma {:induction false} OneFrameSlots(phases: seq<Phase>, k: nat)
    requires OneFrameEach(phases) && k < Frames(phases)
    ensures Slots(phases)[k].last && Slots(phases)[k].report
  {
    var rest, p := phases[..|phases| - 1], phases[|phases| - 1];
    assert p in phases && forall q :: q in rest ==> q in phases;
    if k < Frames(rest) {
      OneFrameSlots(rest, k);
    }
  }

  /** Every frame of such a call is filed. */
  lemma {:induction false} EveryFrameFiled(c: Config, n: nat)
    requires c.Valid() && c.plan.Some? && n <= c.Total() && forall k :: 0 < k <= c.Total() ==> c.StepShot(k)
    ensures |Run(c, n).records| == Run(c, n).n
  {
    if n > 0 {
      EveryFrameFiled(c, n - 1);
    }
  }

  /** Answers at the fourth look. */
  function AtFourth(d: Decision): Decide { (seen: seq<Frame>) => if |seen| >= 4 then Some(d) else None }

  /** A call of that request, with a monitor that answers at its fourth look. */
  ghost predicate PlaysQuickMash(c: Config, d: Decision) {
    && c.Valid() && c.Total() == 120 && c.interval == 15 && c.mash && c.plan.Some? && c.decide == Some(AtFourth(d))
    && forall k :: 0 < k <= c.Total() ==> c.StepShot(k)
  }

  lemma {:induction false} QuickSetup(d: Decision, past: seq<Chord>)
    ensures PlaysQuickMash(Setup(QuickMash(), Some(WantsFor(All)), Some(AtFourth(d)), past), d)
  {
    var c, phases := Setup(QuickMash(), Some(WantsFor(All)), Some(AtFourth(d)), past), PhasesOf(QuickMash(), 120);
    FlattenedSchedule(QuickMash(), 120, 0);
    QuickPhases(A, 120, 0);
    CutPhases(RawPhases(QuickMash(), 120), 120);
    forall k | 0 < k <= c.Total() ensures c.StepShot(k) {
      OneFrameSlots(phases, k - 1);
    }
  }

  lemma {:induction false} FourthLookStops(c: Config, n: nat, d: Decision)
    requires PlaysQuickMash(c, d) && n <= c.Total() && Run(c, n).n == n
    requires Run(c, n).fired.None? ==> n == c.Total()
    ensures n == 60 && Run(c, n).fired == Some(d)
  {
    assert Evaluations(c) == 8;
    RunShows(c, 4);
    assert EvalFrame(c, 3) == 60;
    if n > 60 {
      DecisionEnds(c, 60, n);
    } else if Run(c, n).fired.Some? {
      DecisionEnds(c, n, 60);
    }
  }

  lemma {:induction false} QuickRecords(c: Config, d: Decision, lcd: Frame)
    requires PlaysQuickMash(c, d) && Run(c, 60).n == 60 && Run(c, 60).fired == Some(d)
    ensures var r := CallRecords(c, Run(c, 60), lcd);
            |r| == 61 && forall i :: 0 <= i < |AllKept(r)| ==> !AllKept(r)[i].interrupt
  {
    EveryFrameFiled(c, 60);
    MashInterruptKept(c, 60, lcd);
  }

  lemma {:induction false} QuickResult(c: Config, play: PlayInput, phases: seq<Phase>, n: nat, r: PlayResult,
                                       boy: PyBoy, monitor: Monitor, plan: ScreenshotPlan, clock: Clock, inLoop: nat,
                                       d: Decision)
    requires PlaysQuickMash(c, d) && r.Finished? && clock.at == (i => 0.0) && play.callTimeoutSeconds == 90.0
    requires CallDone(c, play, phases, n, r, boy, monitor, plan, clock, [], [], 0, 0, inLoop)
    ensures r.stop == Decided(d.reason) && |plan.records| == 61
    ensures forall i :: 0 <= i < |AllKept(plan.records)| ==> !AllKept(plan.records)[i].interrupt
  {
    assert clock.at(clock.readings - 1) == 0.0;
    FourthLookStops(c, n, d);
    QuickRecords(c, d, []);
    assert [] + CallRecords(c, Run(c, n), []) == CallRecords(c, Run(c, n), []);
  }

  /** Plays one such call. */
  method PlayQuickMash() returns (r: PlayResult, plan: ScreenshotPlan)
    ensures r.Finished? && r.stop == Decided("seen") && |plan.records| == 61
    ensures forall i :: 0 <= i < |AllKept(plan.records)| ==> !AllKept(plan.records)[i].interrupt
  {
    var boy := new PyBoy(i => true);
    var clock := new Clock(i => 0.0);
    var d := Decision("seen", true, None);
    var monitor := new Monitor(AtFourth(d));
    plan := new ScreenshotPlan(All);
    var play := QuickMash();
    QuickSetup(d, boy.frames);
    ghost var c, n, inLoop := Setup(play, WantsOf(plan), DecideOf(monitor), boy.frames), 0, 0;
    r, n, inLoop := RunPlayInput(boy, play, monitor, plan, clock);
    QuickResult(c, play, PhasesOf(play, Budget(play)), n, r, boy, monitor, plan, clock, inLoop, d);
  }

  /** A call stopped by its monitor hands back thirty of its sixty-one shots, and not the one it stopped at. */
  method LostInterrupt() returns (r: PlayResult, labeled: seq<Labeled>)
    ensures r.Finished? && r.stop == Decided("seen") && |labeled| == 30
    ensures forall i :: 0 <= i < |labeled| ==> !labeled[i].shot.interrupt
  {
    var plan, subsampled;
    r, plan := PlayQuickMash();
    labeled, subsampled := plan.SelectAll();
    assert forall i :: 0 <= i < |labeled| ==> labeled[i].shot == ShotsOf(labeled)[i];
  }
}
