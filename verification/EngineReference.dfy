/** The play engine as it would be if it advanced one frame at a time: the reference the chunked
    scheduler is proved against, and what that reference guarantees. */
module EngineReference {
  import opened PlayTypes
  import opened Phases
  import opened Sampling

  const PUBLIC_MASH_ABORT_GAP_FRAMES := 12

  datatype Decision = Decision(reason: string, untilFired: bool, detail: Option<string>)

  /** A monitor's answer depends on the frames it has been shown so far, the last one included. */
  type Decide = seq<Frame> -> Option<Decision>

  /** Which frames (of how many planned) must be composed for a keyframe. */
  type Wants = (nat, nat) -> bool

  /** One play call: its flat schedule, when to look, and what was played before it. */
  datatype Config = Config(
    slots: seq<Slot>,
    interval: nat,
    mode: ShotMode,
    plan: Option<Wants>,
    planned: nat,
    mash: bool,
    gap: nat,
    decide: Option<Decide>,
    past: seq<Chord>)
  {
    predicate Valid() { interval > 0 && 8 <= gap <= 16 }

    function Total(): nat { |slots| }

    /** The LCD after n frames of the schedule. */
    function Picture(n: nat): Frame
      requires n <= Total()
    {
      past + Held(slots)[..n]
    }

    predicate IsEval(n: nat)
      requires Valid()
    {
      n % interval == 0 || n == Total()
    }

    predicate Wanted(n: nat) { plan.Some? && plan.value(n, planned) }

    /** In mode "all", the end of each reported phase is a shot. */
    predicate StepShot(n: nat)
      requires 0 < n <= Total()
    {
      mode == All && slots[n - 1].last && slots[n - 1].report
    }

    predicate Shoots(n: nat)
      requires 0 < n <= Total()
    {
      Wanted(n) || n == Total() || StepShot(n)
    }

    predicate NeedsLcd(n: nat)
      requires Valid() && 0 < n <= Total()
    {
      IsEval(n) || Shoots(n)
    }

    /** Is the chord of frame n (counted from 1) a new one? */
    predicate ChordChanges(n: nat)
      requires 0 < n <= Total()
    {
      slots[n - 1].first && slots[n - 1].Chord() != if n == 1 then {} else slots[n - 2].Chord()
    }

    /** The last frame count up to n whose frame was composed on the LCD; 0 when none was. */
    function Composed(n: nat): (m: nat)
      requires Valid() && n <= Total()
      ensures m <= n
    {
      if n == 0 then 0
      else if NeedsLcd(n) || ChordChanges(n) then n
      else Composed(n - 1)
    }

    /** Has any frame up to n been composed on purpose? */
    predicate AnyLcd(n: nat)
      requires Valid() && n <= Total()
    {
      exists m :: 0 < m <= n && NeedsLcd(m)
    }
  }

  function Budget(play: PlayInput): nat { Min(play.maxFrames, MAX_FRAMES_PER_CALL) }

  function MashGap(play: PlayInput): nat {
    Min(16, Max(8, Max(play.mashReleaseFrames, PUBLIC_MASH_ABORT_GAP_FRAMES)))
  }

  /** A mash has cycles to play. */
  predicate Playable(play: PlayInput) { play.macro == Mash ==> play.mashPressFrames + play.mashReleaseFrames > 0 }

  function Setup(play: PlayInput, plan: Option<Wants>, decide: Option<Decide>, past: seq<Chord>): (c: Config)
    requires play.macro == Mash ==> play.mashPressFrames + play.mashReleaseFrames > 0
    ensures c.Valid()
  {
    Config(Slots(PhasesOf(play, Budget(play))),
           Max(1, play.untilEvalInterval),
           play.screenshotMode, plan, play.plannedFrames,
           play.macro == Mash, MashGap(play), decide, past)
  }

  /** What a call has done after n frames: the frames shown to the monitor and where, the records
      kept, and the decision that ended it, if any. */
  datatype Obs = Obs(n: nat, shown: seq<Frame>, evalAt: seq<nat>, records: seq<Shot>, fired: Option<Decision>)

  /** One more frame: hold its chord, then look if it is time to. */
  function Step(c: Config, o: Obs): Obs
    requires c.Valid() && o.n < c.Total()
  {
    var n := o.n + 1;
    var picture := c.Picture(n);
    var step := Some(c.slots[o.n].stepIndex);
    var evaluates := c.IsEval(n) && c.decide.Some?;
    var shown := if evaluates then o.shown + [picture] else o.shown;
    var evalAt := if evaluates then o.evalAt + [n] else o.evalAt;
    var decision := if evaluates then c.decide.value(shown) else None;
    if decision.Some? then
      var shot := if c.plan.Some? then [Shot(n, picture, true, !c.mash, step)] else [];
      Obs(n, shown, evalAt, o.records + shot, decision)
    else
      var shot := if c.plan.Some? && c.Shoots(n) then [Shot(n, picture, false, n == c.Total(), step)] else [];
      Obs(n, shown, evalAt, o.records + shot, None)
  }

  /** At most n frames, one at a time, stopping when the monitor decides. */
  function Run(c: Config, n: nat): (o: Obs)
    requires c.Valid() && n <= c.Total()
    ensures o.n <= n && (o.fired.None? ==> o.n == n)
  {
    if n == 0 then Obs(0, [], [], [], None)
    else
      var o := Run(c, n - 1);
      if o.fired.Some? then o else Step(c, o)
  }

  // ---------------------------------------------------------------------------------------------
  // What the reference guarantees

  /** Nothing happens on a frame that needs no LCD, so a stretch of them can be played at once. */
  lemma {:induction false} QuietStretch(c: Config, n: nat, m: nat)
    requires c.Valid() && n <= m <= c.Total()
    requires Run(c, n).fired.None?
    requires forall k :: n < k <= m ==> !c.NeedsLcd(k)
    ensures Run(c, m) == Run(c, n).(n := m)
    decreases m
  {
    if n < m {
      QuietStretch(c, n, m - 1);
      assert !c.NeedsLcd(m);
    }
  }

  /** Where the i-th evaluation (from 0) falls. */
  function EvalFrame(c: Config, i: nat): nat
    requires c.Valid()
  {
    Min((i + 1) * c.interval, c.Total())
  }

  lemma {:induction false} MulStep(i: nat, k: nat)
    ensures (i + 1) * k == i * k + k
  {
  }

  /** Between i*k and (i+1)*k lies no other multiple of k. */
  lemma {:induction false} NoMultipleBetween(i: nat, k: nat, n: nat)
    requires k > 0 && i * k <= n < (i + 1) * k
    ensures n % k == 0 <==> n == i * k
  {
    MulStep(i, k);
    assert n == k * i + (n - i * k);
    ModUnique(n, k, i, n - i * k);
  }

  lemma {:induction false} EvalDue(c: Config, i: nat, n: nat)
    requires c.Valid() && 0 < n <= c.Total()
    requires i * c.interval <= n - 1 < (i + 1) * c.interval
    ensures c.IsEval(n) <==> n == EvalFrame(c, i)
    ensures n < c.Total() && c.IsEval(n) ==> n == (i + 1) * c.interval < (i + 2) * c.interval
  {
    MulStep(i, c.interval);
    MulStep(i + 1, c.interval);
    NoMultipleBetween(if n < (i + 1) * c.interval then i else i + 1, c.interval, n);
  }

  lemma {:induction false} EvaluationCount(c: Config, n: nat)
    requires c.Valid() && c.decide.Some? && n <= c.Total()
    ensures var o := Run(c, n);
            o.n < c.Total() ==> |o.evalAt| * c.interval <= o.n < (|o.evalAt| + 1) * c.interval
    ensures Run(c, n).n == c.Total() > 0 ==>
              var at := Run(c, n).evalAt; at != [] && at[|at| - 1] == c.Total()
  {
    if n > 0 {
      EvaluationCount(c, n - 1);
      var o := Run(c, n - 1);
      if o.fired.None? {
        EvalDue(c, |o.evalAt|, n);
      }
    }
  }

  ghost predicate EvalOk(c: Config, o: Obs, i: nat)
    requires c.Valid() && i < |o.evalAt| == |o.shown|
  {
    && 0 < o.evalAt[i] <= c.Total()
    && o.evalAt[i] == EvalFrame(c, i)
    && o.shown[i] == c.Picture(o.evalAt[i])
  }

  ghost predicate EvalsOk(c: Config, o: Obs)
    requires c.Valid()
  {
    |o.shown| == |o.evalAt| && forall i :: 0 <= i < |o.evalAt| ==> EvalOk(c, o, i)
  }

  lemma {:induction false} StepEvals(c: Config, o: Obs)
    requires c.Valid() && c.decide.Some? && o.n < c.Total() && EvalsOk(c, o)
    requires c.IsEval(o.n + 1) ==> o.n + 1 == EvalFrame(c, |o.evalAt|)
    ensures EvalsOk(c, Step(c, o))
  {
    var p := Step(c, o);
    forall i | 0 <= i < |p.evalAt| ensures EvalOk(c, p, i) {
      assert i < |o.evalAt| ==> EvalOk(c, o, i);
    }
  }

  /** The i-th monitor call happens exactly at frame min((i+1)*interval, total), on the picture of
      that very frame, whatever the phases and keyframes. */
  lemma {:induction false} EvaluationSchedule(c: Config, n: nat)
    requires c.Valid() && c.decide.Some? && n <= c.Total()
    ensures |Run(c, n).shown| == |Run(c, n).evalAt|
    ensures forall i :: 0 <= i < |Run(c, n).evalAt| ==> EvalOk(c, Run(c, n), i)
  {
    if n > 0 {
      EvaluationSchedule(c, n - 1);
      var before := Run(c, n - 1);
      if before.fired.None? {
        EvaluationCount(c, n - 1);
        EvalDue(c, |before.evalAt|, n);
        StepEvals(c, before);
      }
      assert EvalsOk(c, Run(c, n));
    }
  }

  /** A call stops at the first evaluation the monitor decides on, and only there. */
  lemma {:induction false} FirstDecision(c: Config, n: nat)
    requires c.Valid() && n <= c.Total()
    ensures var o := Run(c, n);
            && (forall k :: 0 < k <= |o.shown| ==>
                  c.decide.Some? && c.decide.value(o.shown[..k]) == if k == |o.shown| then o.fired else None)
            && (o.shown == [] ==> o.fired.None?)
            && |o.shown| == |o.evalAt|
            && (o.fired.Some? ==> o.evalAt != [] && o.evalAt[|o.evalAt| - 1] == o.n)
  {
    if n > 0 {
      FirstDecision(c, n - 1);
      var before, o := Run(c, n - 1), Run(c, n);
      if before.fired.None? && |o.shown| > |before.shown| {
        assert o.shown[..|o.shown|] == o.shown;
        assert forall k :: 0 < k <= |before.shown| ==> o.shown[..k] == before.shown[..k];
      }
    }
  }

  /** How many evaluations a call has room for: its frames over the interval, rounded up. */
  function Evaluations(c: Config): nat
    requires c.Valid()
  {
    RoundUp(c.Total(), c.interval)
  }

  function RoundUp(n: nat, k: nat): (r: nat)
    requires k > 0
    ensures n > 0 ==> (r - 1) * k < n <= r * k
    ensures r == 0 <==> n == 0
  {
    if n == 0 then 0
    else
      var q := (n - 1) / k;
      assert n - 1 == k * q + (n - 1) % k && q * k == k * q;
      MulStep(q, k);
      q + 1
  }

  lemma {:induction false} MulOrder(a: nat, b: nat, k: nat)
    requires a <= b
    ensures a * k <= b * k
  {
    assert b * k - a * k == (b - a) * k;
  }

  lemma {:induction false} MulLess(a: nat, b: nat, k: nat)
    requires a * k < b * k
    ensures a < b
  {
    if a >= b {
      MulOrder(b, a, k);
    }
  }

  /** No call makes more. */
  lemma {:induction false} EvaluationsAtMost(c: Config, n: nat)
    requires c.Valid() && c.decide.Some? && n <= c.Total()
    ensures |Run(c, n).shown| == |Run(c, n).evalAt| <= Evaluations(c)
  {
    if n > 0 {
      EvaluationsAtMost(c, n - 1);
      var before := Run(c, n - 1);
      if before.fired.None? {
        EvaluationCount(c, n - 1);
        MulLess(|before.evalAt|, Evaluations(c), c.interval);
      }
    }
  }

  /** The pictures of the first m evaluations. */
  function LookedAt(c: Config, m: nat): (seen: seq<Frame>)
    requires c.Valid()
    ensures |seen| == m && forall i :: 0 <= i < m ==> seen[i] == c.Picture(EvalFrame(c, i))
  {
    seq(m, i requires 0 <= i => c.Picture(EvalFrame(c, i)))
  }

  lemma {:induction false} ShownAreLookedAt(c: Config, n: nat)
    requires c.Valid() && c.decide.Some? && n <= c.Total()
    ensures Run(c, n).shown == LookedAt(c, |Run(c, n).shown|)
  {
    EvaluationSchedule(c, n);
    var o := Run(c, n);
    forall i | 0 <= i < |o.shown| ensures o.shown[i] == c.Picture(EvalFrame(c, i)) {
      assert EvalOk(c, o, i);
    }
  }

  /** Two evaluations of a call are at different frames. */
  lemma {:induction false} EvalFramesGrow(c: Config, i: nat, j: nat)
    requires c.Valid() && i < j < Evaluations(c)
    ensures EvalFrame(c, i) < EvalFrame(c, j)
  {
    MulStep(j, c.interval);
    MulOrder(i + 1, j, c.interval);
    MulOrder(j, Evaluations(c) - 1, c.interval);
  }

  /** If a monitor decides nothing on the first m - 1 pictures, the call gets to show it the m-th. */
  lemma {:induction false} RunShows(c: Config, m: nat)
    requires c.Valid() && c.decide.Some? && 0 < m <= Evaluations(c)
    requires forall k :: 0 < k < m ==> c.decide.value(LookedAt(c, k)).None?
    ensures Run(c, EvalFrame(c, m - 1)).shown == LookedAt(c, m)
    ensures Run(c, EvalFrame(c, m - 1)).n == EvalFrame(c, m - 1)
    ensures Run(c, EvalFrame(c, m - 1)).fired == c.decide.value(LookedAt(c, m))
  {
    var n := EvalFrame(c, m - 1);
    var o := Run(c, n);
    ShownAreLookedAt(c, n);
    EvaluationsAtMost(c, n);
    FirstDecision(c, n);
    EvaluationSchedule(c, n);
    assert o.shown[..|o.shown|] == o.shown;
    if o.fired.Some? {
      assert c.decide.value(LookedAt(c, |o.shown|)).Some?;
      assert EvalOk(c, o, |o.evalAt| - 1);
      if m < |o.shown| {
        EvalFramesGrow(c, m - 1, |o.shown| - 1);
      }
    } else {
      AllShown(c, m);
    }
  }

  lemma {:induction false} AllShown(c: Config, m: nat)
    requires c.Valid() && c.decide.Some? && 0 < m <= Evaluations(c)
    requires Run(c, EvalFrame(c, m - 1)).fired.None?
    ensures |Run(c, EvalFrame(c, m - 1)).shown| == m
  {
    var n := EvalFrame(c, m - 1);
    var o := Run(c, n);
    EvaluationCount(c, n);
    EvaluationSchedule(c, n);
    EvaluationsAtMost(c, n);
    if n < c.Total() {
      MulLess(m, |o.evalAt| + 1, c.interval);
      if |o.evalAt| > m {
        MulOrder(m + 1, |o.evalAt|, c.interval);
        MulStep(m, c.interval);
      }
    } else {
      assert EvalOk(c, o, |o.evalAt| - 1);
      if |o.evalAt| < m {
        EvalFramesGrow(c, |o.evalAt| - 1, m - 1);
      } else if |o.evalAt| > m {
        EvalFramesGrow(c, m - 1, |o.evalAt| - 1);
      }
    }
  }

  ghost predicate RecordOk(c: Config, o: Obs, s: Shot)
    requires c.Valid() && o.n <= c.Total()
  {
    && 0 < s.frameIndex <= o.n
    && s.frame == c.Picture(s.frameIndex)
    && s.stepIndex == Some(c.slots[s.frameIndex - 1].stepIndex)
    && (s.interrupt <==> o.fired.Some? && s.frameIndex == o.n)
    && (s.final <==> if s.interrupt then !c.mash else s.frameIndex == c.Total())
  }

  ghost predicate RecordsOk(c: Config, o: Obs)
    requires c.Valid() && o.n <= c.Total()
  {
    Ascending(o.records) && forall s :: s in o.records ==> RecordOk(c, o, s)
  }

  lemma {:induction false} StepRecords(c: Config, o: Obs)
    requires c.Valid() && o.n < c.Total() && o.fired.None? && RecordsOk(c, o)
    ensures RecordsOk(c, Step(c, o))
  {
    var p := Step(c, o);
    assert forall i :: 0 <= i < |o.records| ==> RecordOk(c, o, o.records[i]);
    forall s | s in p.records ensures RecordOk(c, p, s) {
      assert s in o.records ==> RecordOk(c, o, s);
    }
  }

  /** Records stand at strictly increasing frames and show the picture of their own frame; only
      the one at a decision is an interrupt, and only the last frame's is final. */
  lemma {:induction false} RecordsOrdered(c: Config, n: nat)
    requires c.Valid() && n <= c.Total()
    ensures Ascending(Run(c, n).records)
    ensures forall s :: s in Run(c, n).records ==> RecordOk(c, Run(c, n), s)
  {
    if n > 0 {
      RecordsOrdered(c, n - 1);
      var before := Run(c, n - 1);
      if before.fired.None? {
        StepRecords(c, before);
      }
      assert RecordsOk(c, Run(c, n));
    }
  }

  /** With a plan, every keyframe checkpoint passed is recorded. */
  lemma {:induction false} CheckpointRecorded(c: Config, n: nat, f: nat)
    requires c.Valid() && c.plan.Some? && n <= c.Total()
    requires 0 < f <= Run(c, n).n && c.Wanted(f)
    ensures RecordedAt(Run(c, n).records, f)
  {
    var before, o := Run(c, n - 1), Run(c, n);
    if f <= before.n {
      CheckpointRecorded(c, n - 1, f);
      var s :| s in before.records && s.frameIndex == f;
      assert s in o.records;
    } else {
      assert o.records[|o.records| - 1] in o.records;
    }
  }

  /** With a plan, the frame a call stops at is the last one recorded. */
  lemma {:induction false} StopRecorded(c: Config, n: nat)
    requires c.Valid() && c.plan.Some? && n <= c.Total()
    ensures var o := Run(c, n);
            o.fired.Some? || o.n == c.Total() > 0 ==>
              o.records != [] && o.records[|o.records| - 1].frameIndex == o.n
  {
    if n > 0 {
      StopRecorded(c, n - 1);
    }
  }

  predicate RecordedAt(records: seq<Shot>, f: nat) {
    exists s :: s in records && s.frameIndex == f
  }

  // ---------------------------------------------------------------------------------------------
  // How a call ends

  /** A fired mash lets the button rest for some released frames past the stop. */
  function RestGap(c: Config, o: Obs): nat
    requires c.Valid()
  {
    if o.fired.Some? && c.mash then c.gap else 0
  }

  /** Without a final record from the loop, one is taken on the way out. */
  predicate LateFinal(c: Config, o: Obs) {
    c.plan.Some? && o.fired.None? && !(o.n == c.Total() > 0)
  }

  /** When no frame was composed on purpose, the late final record first plays one uncounted frame. */
  predicate ExtraTick(c: Config, o: Obs)
    requires c.Valid() && o.n <= c.Total()
  {
    LateFinal(c, o) && o.n > 0 && !c.AnyLcd(o.n)
  }

  /** Everything the emulator has played when the call returns. */
  function Played(c: Config, o: Obs): Frame
    requires c.Valid() && o.n <= c.Total()
  {
    c.Picture(o.n) + Repeat({}, if ExtraTick(c, o) then 1 else RestGap(c, o))
  }

  /** What the late final record shows; `lcd` is the LCD from before the call. */
  function LatePicture(c: Config, o: Obs, lcd: Frame): Frame
    requires c.Valid() && o.n <= c.Total()
  {
    if ExtraTick(c, o) then Played(c, o)
    else if c.Composed(o.n) > 0 then c.Picture(c.Composed(o.n))
    else lcd
  }

  /** Every record of a call that stopped where o stands. */
  function CallRecords(c: Config, o: Obs, lcd: Frame): seq<Shot>
    requires c.Valid() && o.n <= c.Total()
  {
    if c.plan.None? then []
    else if o.fired.Some? && c.mash && 0 < o.n then
      o.records + [Shot(o.n + c.gap, c.Picture(o.n) + Repeat({}, c.gap), false, true, Some(c.slots[o.n - 1].stepIndex))]
    else if LateFinal(c, o) then o.records + [Shot(o.n, LatePicture(c, o, lcd), false, true, None)]
    else o.records
  }

  /** In the loop a final record is made only at a plain stop or on the last frame, and then last. */
  lemma {:induction false} LoopFinals(c: Config, n: nat)
    requires c.Valid() && n <= c.Total() && Run(c, n).n == n
    ensures var o := Run(c, n);
            forall i :: 0 <= i < |o.records| ==>
              (o.records[i].final <==>
               o.records[i].frameIndex == n && if o.fired.Some? then !c.mash else n == c.Total())
    ensures forall i :: 0 <= i < |Run(c, n).records| ==> 0 < Run(c, n).records[i].frameIndex
  {
    RecordsOrdered(c, n);
    var o := Run(c, n);
    forall i | 0 <= i < |o.records|
      ensures o.records[i].final <==>
              o.records[i].frameIndex == n && if o.fired.Some? then !c.mash else n == c.Total()
    {
      assert RecordOk(c, o, o.records[i]);
    }
    forall i | 0 <= i < |o.records| ensures 0 < o.records[i].frameIndex {
      assert RecordOk(c, o, o.records[i]);
    }
  }

  /** Exactly one record is final: the last, at the number of frames the call reports. */
  lemma {:induction false} OneFinalRecord(c: Config, n: nat, lcd: Frame)
    requires c.Valid() && c.plan.Some? && n <= c.Total() && Run(c, n).n == n
    ensures CallRecords(c, Run(c, n), lcd) != []
    ensures var r := CallRecords(c, Run(c, n), lcd); r[|r| - 1].frameIndex == n + RestGap(c, Run(c, n))
    ensures var r := CallRecords(c, Run(c, n), lcd); forall i :: 0 <= i < |r| ==> (r[i].final <==> i == |r| - 1)
    ensures var r := CallRecords(c, Run(c, n), lcd); Ascending(r[..|r| - 1])
  {
    LoopFinals(c, n);
    RecordsOrdered(c, n);
    StopRecorded(c, n);
    LastIsFinal(c, Run(c, n), lcd);
  }

  lemma {:induction false} LastIsFinal(c: Config, o: Obs, lcd: Frame)
    requires c.Valid() && c.plan.Some? && o.n <= c.Total() && Ascending(o.records)
    requires o.fired.Some? || o.n == c.Total() > 0 ==>
               o.records != [] && o.records[|o.records| - 1].frameIndex == o.n
    requires o.fired.Some? ==> o.n > 0
    requires forall i :: 0 <= i < |o.records| ==>
               (o.records[i].final <==>
                o.records[i].frameIndex == o.n && if o.fired.Some? then !c.mash else o.n == c.Total())
    requires forall i :: 0 <= i < |o.records| ==> 0 < o.records[i].frameIndex
    ensures CallRecords(c, o, lcd) != []
    ensures var r := CallRecords(c, o, lcd); r[|r| - 1].frameIndex == o.n + RestGap(c, o)
    ensures var r := CallRecords(c, o, lcd); forall i :: 0 <= i < |r| ==> (r[i].final <==> i == |r| - 1)
    ensures var r := CallRecords(c, o, lcd); Ascending(r[..|r| - 1])
  {
    var r := CallRecords(c, o, lcd);
    assert r == o.records || (|r| == |o.records| + 1 && r[..|r| - 1] == o.records);
  }

  /** The last picture filed by a call that no monitor ended shows all frames played exactly when the frame
      it stopped at was due to be seen or began a new chord, or when no frame was due before it: the flag
      tested only remembers that some earlier frame was seen. */
  lemma {:induction false} LatePictureIsCurrent(c: Config, n: nat, lcd: Frame)
    requires c.Valid() && c.plan.Some? && 0 < n <= c.Total() && Run(c, n).fired.None?
    ensures CallRecords(c, Run(c, n), lcd) != []
    ensures var records := CallRecords(c, Run(c, n), lcd);
            c.Picture(n) <= records[|records| - 1].frame <==> c.NeedsLcd(n) || c.ChordChanges(n) || !c.AnyLcd(n)
  {
    OneFinalRecord(c, n, lcd);
    if n == c.Total() {
      var o := Run(c, n);
      RecordsOrdered(c, n);
      StopRecorded(c, n);
      assert RecordOk(c, o, o.records[|o.records| - 1]);
    } else {
      ComposedAny(c, n);
      if c.AnyLcd(n) && c.Composed(n) < n {
        assert |c.Picture(c.Composed(n))| < |c.Picture(n)|;
      }
    }
  }

  lemma {:induction false} ComposedAny(c: Config, n: nat)
    requires c.Valid() && n <= c.Total()
    ensures c.AnyLcd(n) ==> c.Composed(n) > 0
  {
    if n > 0 && !c.NeedsLcd(n) {
      ComposedAny(c, n - 1);
    }
  }

  lemma {:induction false} NothingDecides(c: Config, n: nat)
    requires c.Valid() && c.decide.None? && n <= c.Total()
    ensures Run(c, n).fired.None?
  {
    if n > 0 {
      NothingDecides(c, n - 1);
    }
  }

  /** After a decision nothing more happens, so a call that was not timed out did the whole run. */
  lemma {:induction false} DecisionEnds(c: Config, n: nat, m: nat)
    requires c.Valid() && n <= m <= c.Total() && Run(c, n).fired.Some?
    ensures Run(c, m) == Run(c, n)
    decreases m
  {
    if n < m {
      DecisionEnds(c, n, m - 1);
    }
  }

  /** A call advances at most its frame budget, and past it only by a fired mash's released gap of
      twelve to sixteen frames. */
  lemma {:induction false} CallBudget(play: PlayInput, plan: Option<Wants>, decide: Option<Decide>, past: seq<Chord>,
                                      n: nat)
    requires play.macro == Mash ==> play.mashPressFrames + play.mashReleaseFrames > 0
    requires n <= Setup(play, plan, decide, past).Total()
    ensures var c := Setup(play, plan, decide, past);
            var o := Run(c, n);
            && n <= play.maxFrames && n <= MAX_FRAMES_PER_CALL
            && (RestGap(c, o) > 0 <==> play.macro == Mash && o.fired.Some?)
            && (RestGap(c, o) > 0 ==> 12 <= RestGap(c, o) <= 16)
  {
  }
}
