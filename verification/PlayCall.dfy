/** One play call from start to finish, proved to do what the one-frame-at-a-time reference does. */
module PlayCall {
  import opened PlayTypes
  import opened Phases
  import opened Sampling
  import opened Screenshots
  import opened EngineReference
  import opened InputEngine

  function NextEvalFrame(current: nat, interval: nat, total: nat): int
    requires interval > 0
  {
    if current >= total then total
    else
      var nxt := (current / interval + 1) * interval;
      if nxt > total then total else nxt
  }

  /** The next evaluation after n frames is the only frame up to it where one is due. */
  lemma {:induction false} NextEvalIsNext(c: Config, n: nat)
    requires c.Valid() && n < c.Total()
    ensures n < NextEvalFrame(n, c.interval, c.Total()) <= c.Total()
    ensures forall k :: n < k <= NextEvalFrame(n, c.interval, c.Total()) ==>
              (c.IsEval(k) <==> k == NextEvalFrame(n, c.interval, c.Total()))
  {
    var i := n / c.interval;
    assert i * c.interval <= n < (i + 1) * c.interval by {
      MulStep(i, c.interval);
      assert n == c.interval * i + n % c.interval;
    }
    forall k | n < k <= NextEvalFrame(n, c.interval, c.Total())
      ensures c.IsEval(k) <==> k == NextEvalFrame(n, c.interval, c.Total())
    {
      EvalDue(c, i, k);
    }
  }

  /** Frames n+1..m share one chord, and only the last of them may need the LCD. */
  ghost predicate IsChunk(c: Config, n: nat, m: nat)
    requires c.Valid()
  {
    && n < m <= c.Total()
    && (forall k :: n < k < m ==> !c.NeedsLcd(k))
    && (forall k :: n <= k < m ==> c.slots[k].Chord() == c.slots[n].Chord())
    && (forall k :: n < k < m ==> !c.slots[k].first)
    && (forall k :: n <= k < m - 1 ==> !c.slots[k].last)
  }

  /** Which frame count the LCD shows after n frames; `lcd` is the one from before the call. */
  function LcdAt(c: Config, n: nat, lcd: nat): nat
    requires c.Valid() && n <= c.Total()
  {
    if c.Composed(n) > 0 then |c.past| + c.Composed(n) else lcd
  }

  lemma {:induction false} ComposedInside(c: Config, n: nat, m: nat)
    requires c.Valid() && n < m <= c.Total()
    requires forall k :: n < k <= m ==> !c.NeedsLcd(k)
    requires forall k :: n < k < m ==> !c.slots[k].first
    ensures c.Composed(m) == if c.ChordChanges(n + 1) then n + 1 else c.Composed(n)
    decreases m
  {
    assert !c.NeedsLcd(m);
    if n + 1 < m {
      ComposedInside(c, n, m - 1);
      assert !c.slots[m - 1].first;
    }
  }

  /** A chunk adds its frames at once, and leaves the LCD where its first or last frame put it. */
  lemma {:induction false} ChunkPlayed(c: Config, n: nat, m: nat, lcd: nat)
    requires c.Valid() && IsChunk(c, n, m)
    ensures c.Picture(m) == c.Picture(n) + Repeat(c.slots[n].Chord(), m - n)
    ensures LcdAt(c, m, lcd) == if c.NeedsLcd(m) then |c.past| + m
                                else if c.ChordChanges(n + 1) then |c.past| + n + 1
                                else LcdAt(c, n, lcd)
    ensures c.AnyLcd(m) <==> c.AnyLcd(n) || c.NeedsLcd(m)
  {
    if !c.NeedsLcd(m) {
      ComposedInside(c, n, m);
    }
  }

  /** For the reference, too, a chunk is one look at its last frame. */
  lemma {:induction false} RunChunk(c: Config, n: nat, m: nat)
    requires c.Valid() && IsChunk(c, n, m) && Run(c, n).fired.None?
    ensures Run(c, m) == Looked(c, Run(c, n), m)
  {
    QuietStretch(c, n, m - 1);
  }

  ghost predicate Wired(c: Config, play: PlayInput, monitor: Monitor?, plan: ScreenshotPlan?) {
    && c.plan == (if plan == null then None else Some(plan.wants))
    && c.decide == (if monitor == null then None else Some(monitor.decide))
    && c.mode == play.screenshotMode && c.planned == play.plannedFrames
    && (c.mash <==> play.macro == Mash) && c.gap == MashGap(play)
  }

  /** The monitor and the plan have seen what the reference's observations say. */
  ghost predicate Kept(o: Obs, monitor: Monitor?, plan: ScreenshotPlan?, kept: seq<Shot>)
    reads monitor, plan
  {
    && (monitor != null ==> monitor.shown == o.shown)
    && (plan != null ==> plan.records == kept + o.records)
  }

  datatype Chunk =
    | Died
    | Stopped(decision: Decision, advanced: nat)
    | Going(evalIndex: nat)

  /** The emulator died after some frames of the schedule and perhaps some of the rest. */
  ghost predicate DiedAfter(c: Config, frames: seq<Chord>, m: nat, rest: nat) {
    m <= c.Total() && rest <= 16 && frames == c.Picture(m) + Repeat({}, rest)
  }

  ghost predicate DiedSomewhere(c: Config, boy: PyBoy)
    reads boy
  {
    boy.Stopped() && exists m, rest :: DiedAfter(c, boy.frames, m, rest)
  }

  /** What one chunk adds to the tick log: its own chord, rendered first if the chord is new. */
  ghost predicate ChunkTicks(added: seq<Tick>, chord: Chord, renderFirst: bool) {
    added != [] && TicksOf(added, chord) && (renderFirst ==> added[0].render)
  }

  /** Ticks of the released gap after a fired mash: the first is not rendered. */
  ghost predicate GapTicks(rest: seq<Tick>) {
    rest != [] && TicksOf(rest, {}) && !rest[0].render
  }

  lemma {:induction false} DiedInside(c: Config, n: nat, m: nat, boy: PyBoy)
    requires c.Valid() && IsChunk(c, n, m) && boy.Stopped()
    requires Grew(c.Picture(n), boy.frames, c.slots[n].Chord(), m - n)
    ensures DiedSomewhere(c, boy)
  {
    var k := |boy.frames| - |c.Picture(n)|;
    PartialChunk(c, n, m, k);
    assert DiedAfter(c, boy.frames, n + k, 0);
  }

  /** Plays the frames of one chunk. */
  method TickFrames(boy: PyBoy, pressed: Chord, chunk: nat, needRender: bool, chordChanged: bool, ghost c: Config,
                    ghost n: nat, ghost lcd: nat)
    returns (running: bool)
    requires boy.Valid() && c.Valid() && IsChunk(c, n, n + chunk)
    requires boy.frames == c.Picture(n) && boy.lcdAt == LcdAt(c, n, lcd)
    requires boy.held == pressed == c.slots[n].Chord()
    requires needRender == c.NeedsLcd(n + chunk) && chordChanged == c.ChordChanges(n + 1)
    modifies boy
    ensures boy.Valid() && |old(boy.ticks)| < |boy.ticks| && old(boy.ticks) <= boy.ticks
    ensures ChunkTicks(boy.ticks[|old(boy.ticks)|..], pressed, chordChanged)
    ensures running ==> boy.held == old(boy.held) && boy.frames == c.Picture(n + chunk)
    ensures running ==> boy.lcdAt == LcdAt(c, n + chunk, lcd)
    ensures running && needRender ==> boy.Lcd() == c.Picture(n + chunk)
    ensures !running ==> boy.held == {} && DiedSomewhere(c, boy)
  {
    ChunkPlayed(c, n, n + chunk, lcd);
    running := TickChunk(boy, chunk, needRender, chordChanged);
    if !running {
      ReleaseAll(boy, pressed);
      DiedInside(c, n, n + chunk, boy);
    }
  }

  /** The monitor has decided: let go, record, and after a mash rest for some released frames. */
  method StopHere(boy: PyBoy, plan: ScreenshotPlan?, play: PlayInput, pressed: Chord, stepIndex: nat, end: nat,
                  frame: Frame, decision: Decision, ghost c: Config, ghost o: Obs, ghost kept: seq<Shot>)
    returns (r: Chunk)
    requires boy.Valid() && c.Valid() && 0 < end <= c.Total()
    requires c.plan == (if plan == null then None else Some(plan.wants))
    requires (c.mash <==> play.macro == Mash) && c.gap == MashGap(play)
    requires o.n == end && o.fired == Some(decision)
    requires plan != null ==>
               kept + o.records == plan.records + [Shot(end, frame, true, !c.mash, Some(stepIndex))]
    requires boy.held == pressed && boy.frames == c.Picture(end) == frame && stepIndex == c.slots[end - 1].stepIndex
    modifies boy, plan
    ensures boy.Valid() && old(boy.ticks) <= boy.ticks && boy.held == {}
    ensures r.Died? ==> DiedSomewhere(c, boy)
    ensures !r.Died? ==> r == Stopped(decision, end + RestGap(c, o)) && boy.frames == Played(c, o)
    ensures !r.Died? && plan != null ==> plan.records == kept + CallRecords(c, o, c.past)
    ensures !r.Died? ==> if c.mash then GapTicks(boy.ticks[|old(boy.ticks)|..]) else boy.ticks == old(boy.ticks)
  {
    ReleaseAll(boy, pressed);
    assert boy.held == {};
    if plan != null {
      plan.Record(end, frame, true, play.macro != Mash, Some(stepIndex));
    }
    if play.macro != Mash {
      return Stopped(decision, end);
    }
    var gap := Max(play.mashReleaseFrames, PUBLIC_MASH_ABORT_GAP_FRAMES);
    gap := Min(16, Max(8, gap));
    var running := TickChunk(boy, gap, true, false);
    if !running {
      assert Grew(frame, boy.frames, {}, gap);
      assert DiedAfter(c, boy.frames, end, |boy.frames| - |c.Picture(end)|);
      return Died;
    }
    assert boy.ticks[|old(boy.ticks)|..][0] == boy.ticks[|old(boy.ticks)|];
    var after := boy.CaptureNative();
    assert after == boy.frames == c.Picture(end) + Repeat({}, c.gap);
    if plan != null {
      plan.Record(end + gap, after, false, true, Some(stepIndex));
      assert CallRecords(c, o, c.past) == o.records + [Shot(end + gap, after, false, true, Some(stepIndex))];
    }
    r := Stopped(decision, end + gap);
  }

  /** The reference's observations after the chunk from n to m: its last frame is the one looked at. */
  function Looked(c: Config, o: Obs, m: nat): Obs
    requires c.Valid() && 0 < m <= c.Total()
  {
    Step(c, o.(n := m - 1))
  }

  /** The chunk's last frame: show it to the monitor if an evaluation is due, and record it. */
  method Look(boy: PyBoy, monitor: Monitor?, plan: ScreenshotPlan?, play: PlayInput, pressed: Chord, stepIndex: nat,
              end: nat, needEval: bool, want: bool, isLast: bool, stepShot: bool, evalIndex: nat, ghost c: Config,
              ghost o: Obs, ghost kept: seq<Shot>)
    returns (r: Chunk)
    requires boy.Valid() && c.Valid() && 0 < end <= c.Total() && Wired(c, play, monitor, plan)
    requires Kept(o, monitor, plan, kept) && evalIndex == |o.shown| && o.fired.None?
    requires boy.held == pressed && boy.Lcd() == boy.frames == c.Picture(end)
    requires stepIndex == c.slots[end - 1].stepIndex
    requires needEval == c.IsEval(end) && want == c.Wanted(end) && isLast == (end == c.Total())
    requires stepShot == c.StepShot(end)
    modifies boy, monitor, plan
    ensures boy.Valid() && old(boy.ticks) <= boy.ticks
    ensures r.Died? ==> boy.held == {} && DiedSomewhere(c, boy)
    ensures !r.Died? && monitor != null ==> monitor.shown == Looked(c, o, end).shown
    ensures r.Going? ==>
              && Looked(c, o, end).fired.None? && Kept(Looked(c, o, end), monitor, plan, kept)
              && r.evalIndex == |Looked(c, o, end).shown|
              && boy.held == old(boy.held) && boy.frames == old(boy.frames) && boy.lcdAt == old(boy.lcdAt)
              && boy.ticks == old(boy.ticks)
    ensures r.Stopped? ==>
              var o2 := Looked(c, o, end);
              && o2.fired == Some(r.decision) && r.advanced == end + RestGap(c, o2)
              && boy.held == {} && boy.frames == Played(c, o2)
              && (plan != null ==> plan.records == kept + CallRecords(c, o2, c.past))
              && (if c.mash then GapTicks(boy.ticks[|old(boy.ticks)|..]) else boy.ticks == old(boy.ticks))
  {
    r := Going(evalIndex);
    var frame := boy.CaptureNative();
    if needEval && monitor != null {
      var decision := monitor.Evaluate(frame, evalIndex);
      r := Going(evalIndex + 1);
      if decision.Some? {
        r := StopHere(boy, plan, play, pressed, stepIndex, end, frame, decision.value, c, Looked(c, o, end), kept);
        return;
      }
    }
    if plan != null && (want || isLast || stepShot) {
      plan.Record(end, frame, false, isLast, Some(stepIndex));
    }
  }

  /** A frame nobody needs to see leaves the observations alone. */
  lemma {:induction false} NothingToSee(c: Config, o: Obs, m: nat)
    requires c.Valid() && 0 < m <= c.Total() && !c.NeedsLcd(m) && o.fired.None?
    ensures Looked(c, o, m) == o.(n := m)
  {
  }

  /** The frames of a chunk cut short are still frames of the schedule. */
  lemma {:induction false} PartialChunk(c: Config, n: nat, m: nat, k: nat)
    requires c.Valid() && IsChunk(c, n, m) && k <= m - n
    ensures c.Picture(n + k) + Repeat({}, 0) == c.Picture(n) + Repeat(c.slots[n].Chord(), k)
  {
  }

  /** Looks at the chunk's last frame, if anything is due there. */
  method LookIfDue(boy: PyBoy, monitor: Monitor?, plan: ScreenshotPlan?, play: PlayInput, pressed: Chord,
                   stepIndex: nat, end: nat, rendered: bool, needEval: bool, want: bool, isLast: bool, stepShot: bool,
                   evalIndex: nat, ghost c: Config, ghost o: Obs, ghost kept: seq<Shot>)
    returns (r: Chunk)
    requires boy.Valid() && c.Valid() && 0 < end <= c.Total() && Wired(c, play, monitor, plan)
    requires Kept(o, monitor, plan, kept) && evalIndex == |o.shown| && o.fired.None?
    requires boy.held == pressed && boy.frames == c.Picture(end) && (rendered ==> boy.Lcd() == boy.frames)
    requires stepIndex == c.slots[end - 1].stepIndex && rendered == c.NeedsLcd(end)
    requires needEval == c.IsEval(end) && want == c.Wanted(end) && isLast == (end == c.Total())
    requires stepShot == c.StepShot(end)
    modifies boy, monitor, plan
    ensures boy.Valid() && old(boy.ticks) <= boy.ticks
    ensures r.Died? ==> boy.held == {} && DiedSomewhere(c, boy)
    ensures !r.Died? && monitor != null ==> monitor.shown == Looked(c, o, end).shown
    ensures r.Going? ==>
              && Looked(c, o, end).fired.None? && Kept(Looked(c, o, end), monitor, plan, kept)
              && r.evalIndex == |Looked(c, o, end).shown|
              && boy.held == old(boy.held) && boy.frames == old(boy.frames) && boy.lcdAt == old(boy.lcdAt)
              && boy.ticks == old(boy.ticks)
    ensures r.Stopped? ==>
              var o2 := Looked(c, o, end);
              && o2.fired == Some(r.decision) && r.advanced == end + RestGap(c, o2)
              && boy.held == {} && boy.frames == Played(c, o2)
              && (plan != null ==> plan.records == kept + CallRecords(c, o2, c.past))
              && (if c.mash then GapTicks(boy.ticks[|old(boy.ticks)|..]) else boy.ticks == old(boy.ticks))
  {
    if rendered {
      r := Look(boy, monitor, plan, play, pressed, stepIndex, end, needEval, want, isLast, stepShot, evalIndex, c, o,
                kept);
    } else {
      NothingToSee(c, o, end);
      r := Going(evalIndex);
    }
  }

  // ---------------------------------------------------------------------------------------------
  // Phases and chunks

  /** After n frames the schedule is `progress` frames into phase idx. */
  ghost predicate InPhase(phases: seq<Phase>, idx: nat, progress: nat, n: nat) {
    idx < |phases| && progress < phases[idx].frames && n == Frames(phases[..idx]) + progress
  }

  lemma {:induction false} PhaseSlots(phases: seq<Phase>, idx: nat, progress: nat, n: nat)
    requires InPhase(phases, idx, progress, n)
    ensures n + (phases[idx].frames - progress) == Frames(phases[..idx + 1]) <= Frames(phases)
    ensures forall k :: n <= k < n + (phases[idx].frames - progress) ==>
              Slots(phases)[k] == SlotOf(phases[idx], progress + (k - n))
  {
    SlotAt(phases, idx, progress);
    forall k | n <= k < n + (phases[idx].frames - progress)
      ensures Slots(phases)[k] == SlotOf(phases[idx], progress + (k - n))
    {
      SlotAt(phases, idx, progress + (k - n));
    }
  }

  lemma {:induction false} FirstPhase(phases: seq<Phase>)
    requires phases != [] && forall p :: p in phases ==> p.frames > 0
    ensures InPhase(phases, 0, 0, 0) && Frames(phases) > 0
  {
    assert phases[..0] == [] && phases[0] in phases;
    SlotAt(phases, 0, 0);
  }

  /** The largest chunk from n that ends no later than its phase, the next evaluation and the call,
      cut at the first keyframe inside it. */
  method ChunkLength(plan: ScreenshotPlan?, planned: nat, advanced: nat, phaseLeft: nat, nextEval: int, total: nat)
    returns (chunk: nat)
    requires phaseLeft > 0 && advanced < nextEval <= total
    ensures 0 < chunk <= phaseLeft && advanced + chunk <= nextEval
    ensures plan != null ==> forall k: nat :: advanced < k < advanced + chunk ==> !plan.wants(k, planned)
    ensures chunk == phaseLeft || advanced + chunk == nextEval
        || (plan != null && plan.wants(advanced + chunk, planned))
  {
    chunk := Min(Min(phaseLeft, nextEval - advanced), total - advanced);
    if plan != null {
      for offset := 1 to chunk
        invariant forall k: nat :: advanced < k < advanced + offset ==> !plan.wants(k, planned)
      {
        if plan.wants(advanced + offset, planned) {
          return offset;
        }
      }
    }
  }

  /** A chunk so cut is a chunk of the reference, and ends at a phase end or a frame to be seen. */
  lemma {:induction false} ChunkIsChunk(c: Config, phases: seq<Phase>, idx: nat, progress: nat, n: nat, chunk: nat)
    requires c.Valid() && c.slots == Slots(phases) && InPhase(phases, idx, progress, n) && n < c.Total()
    requires 0 < chunk <= phases[idx].frames - progress
    requires n + chunk <= NextEvalFrame(n, c.interval, c.Total())
    requires forall k: nat :: n < k < n + chunk ==> !c.Wanted(k)
    ensures IsChunk(c, n, n + chunk)
    ensures c.IsEval(n + chunk) <==> n + chunk == NextEvalFrame(n, c.interval, c.Total())
    ensures c.StepShot(n + chunk) <==>
            c.mode == All && progress + chunk == phases[idx].frames && phases[idx].report
    ensures c.slots[n + chunk - 1].stepIndex == phases[idx].stepIndex
    ensures c.slots[n].Chord() == ChordOf(phases[idx].buttons)
    ensures c.slots[n + chunk - 1].last <==> progress + chunk == phases[idx].frames
  {
    PhaseSlots(phases, idx, progress, n);
    NextEvalIsNext(c, n);
    forall k | n < k < n + chunk ensures !c.NeedsLcd(k) && !c.slots[k].first {
      assert c.slots[k] == SlotOf(phases[idx], progress + (k - n));
      assert c.slots[k - 1] == SlotOf(phases[idx], progress + (k - 1 - n));
    }
    forall k | n <= k < n + chunk - 1 ensures !c.slots[k].last {
      assert c.slots[k] == SlotOf(phases[idx], progress + (k - n));
    }
  }

  /** A frame count at which the loop may stop: a phase end, a frame to be seen, or the start. */
  ghost predicate Boundary(c: Config, n: nat)
    requires c.Valid() && n <= c.Total()
  {
    n == 0 || c.slots[n - 1].last || c.NeedsLcd(n)
  }

  /** The first frame count after n at which the loop may stop. */
  ghost predicate NextBoundary(c: Config, n: nat, m: nat)
    requires c.Valid()
  {
    n < m <= c.Total() && Boundary(c, m) && forall k :: n < k < m ==> !Boundary(c, k)
  }

  lemma {:induction false} ChunkEnds(c: Config, n: nat, m: nat)
    requires c.Valid() && IsChunk(c, n, m) && (c.slots[m - 1].last || c.NeedsLcd(m))
    ensures NextBoundary(c, n, m)
  {
    forall k | n < k < m ensures !Boundary(c, k) {
      assert !c.NeedsLcd(k) && !c.slots[k - 1].last;
    }
  }

  /** The next chunk goes exactly to the next frame count at which the loop may stop; the flags say why its
      last frame must be seen. */
  method CutChunk(plan: ScreenshotPlan?, play: PlayInput, phase: Phase, progress: nat, interval: nat, advanced: nat,
                  total: nat, ghost phases: seq<Phase>, ghost idx: nat, ghost c: Config)
    returns (end: nat, needEval: bool, want: bool, stepShot: bool)
    requires c.Valid() && c.plan == (if plan == null then None else Some(plan.wants))
    requires c.mode == play.screenshotMode && c.planned == play.plannedFrames && c.interval == interval
    requires total == c.Total() && advanced < total && c.slots == Slots(phases)
    requires InPhase(phases, idx, progress, advanced) && phase == phases[idx]
    ensures IsChunk(c, advanced, end) && NextBoundary(c, advanced, end) && end - advanced <= phase.frames - progress
    ensures needEval == c.IsEval(end) && want == c.Wanted(end) && stepShot == c.StepShot(end)
    ensures c.NeedsLcd(end) || end - advanced == phase.frames - progress
    ensures c.slots[end - 1].stepIndex == phase.stepIndex
  {
    var nextEval := NextEvalFrame(advanced, interval, total);
    NextEvalIsNext(c, advanced);
    var chunk := ChunkLength(plan, play.plannedFrames, advanced, phase.frames - progress, nextEval, total);
    ChunkIsChunk(c, phases, idx, progress, advanced, chunk);
    end := advanced + chunk;
    needEval := end == nextEval;
    want := plan != null && plan.wants(end, play.plannedFrames);
    stepShot := play.screenshotMode == All && progress + chunk >= phase.frames && phase.report;
    ChunkEnds(c, advanced, end);
  }

  /** Plays a chunk that has been cut, and looks at its last frame. */
  method PlayChunk(boy: PyBoy, monitor: Monitor?, plan: ScreenshotPlan?, play: PlayInput, phase: Phase, advanced: nat,
                   end: nat, total: nat, needEval: bool, want: bool, stepShot: bool, pressed: Chord, chordChanged: bool,
                   evalIndex: nat, ghost c: Config, ghost o: Obs, ghost kept: seq<Shot>, ghost lcd: nat)
    returns (r: Chunk, rendered: bool, ghost inLoop: nat)
    requires boy.Valid() && c.Valid() && Wired(c, play, monitor, plan) && total == c.Total()
    requires IsChunk(c, advanced, end) && phase.stepIndex == c.slots[end - 1].stepIndex
    requires needEval == c.IsEval(end) && want == c.Wanted(end) && stepShot == c.StepShot(end)
    requires boy.frames == c.Picture(advanced) && boy.lcdAt == LcdAt(c, advanced, lcd)
    requires Kept(o, monitor, plan, kept) && evalIndex == |o.shown| && o.fired.None?
    requires boy.held == pressed == c.slots[advanced].Chord() && chordChanged == c.ChordChanges(advanced + 1)
    modifies boy, monitor, plan
    ensures boy.Valid() && |old(boy.ticks)| < inLoop <= |boy.ticks| && old(boy.ticks) <= boy.ticks
    ensures rendered == c.NeedsLcd(end)
    ensures ChunkTicks(boy.ticks[|old(boy.ticks)|..inLoop], pressed, chordChanged)
    ensures r.Died? ==> boy.held == {} && DiedSomewhere(c, boy)
    ensures !r.Died? && monitor != null ==> monitor.shown == Looked(c, o, end).shown
    ensures r.Going? ==>
              && Looked(c, o, end).fired.None? && Kept(Looked(c, o, end), monitor, plan, kept)
              && r.evalIndex == |Looked(c, o, end).shown| && inLoop == |boy.ticks|
              && boy.held == old(boy.held) && boy.frames == c.Picture(end) && boy.lcdAt == LcdAt(c, end, lcd)
    ensures r.Stopped? ==>
              var o2 := Looked(c, o, end);
              && o2.fired == Some(r.decision) && r.advanced == end + RestGap(c, o2)
              && boy.held == {} && boy.frames == Played(c, o2)
              && (plan != null ==> plan.records == kept + CallRecords(c, o2, c.past))
              && (if c.mash then GapTicks(boy.ticks[inLoop..]) else inLoop == |boy.ticks|)
  {
    var isLast := end == total;
    rendered := needEval || want || isLast || stepShot;
    var running := TickFrames(boy, pressed, end - advanced, rendered, chordChanged, c, advanced, lcd);
    inLoop := |boy.ticks|;
    if !running {
      r := Died;
    } else {
      r := LookIfDue(boy, monitor, plan, play, pressed, phase.stepIndex, end, rendered, needEval, want, isLast,
                     stepShot, evalIndex, c, o, kept);
    }
  }

  // ---------------------------------------------------------------------------------------------
  // The loop

  datatype StepReport = StepReport(buttons: seq<Button>, holdFrames: nat, stepIndex: nat)

  /** The reported phases among those entered. */
  function Reports(phases: seq<Phase>): seq<StepReport> {
    if phases == [] then []
    else
      var p := phases[|phases| - 1];
      Reports(phases[..|phases| - 1]) + Report(p)
  }

  function Report(p: Phase): seq<StepReport> {
    if p.report then [StepReport(p.buttons, p.frames, p.stepIndex)] else []
  }

  lemma {:induction false} ReportsNext(phases: seq<Phase>, k: nat)
    requires k < |phases|
    ensures Reports(phases[..k + 1]) == Reports(phases[..k]) + Report(phases[k])
  {
    assert phases[..k + 1][..k] == phases[..k];
  }

  datatype LoopEnd =
    | LoopDied
    | LoopTimedOut
    | LoopDecided(decision: Decision, advanced: nat)
    | LoopFinished

  /** The emulator and the log halfway through a call, after n undecided frames. */
  ghost predicate Between(c: Config, n: nat, boy: PyBoy, lcd: nat, from: nat)
    requires c.Valid()
    reads boy
  {
    && boy.Valid() && n <= c.Total() && from <= |boy.ticks|
    && boy.frames == c.Picture(n) && boy.lcdAt == LcdAt(c, n, lcd)
    && LogOk(boy.ticks[from..])
  }

  /** Every tick is legal, and every change of chord is rendered. */
  ghost predicate LogOk(added: seq<Tick>) {
    (forall t :: t in added ==> TickOk(t)) && ChangesRendered({}, added)
  }

  /** How many chunks the first n frames are played in. */
  ghost function Turns(c: Config, n: nat): nat
    requires c.Valid() && n <= c.Total()
  {
    if n == 0 then 0 else Turns(c, n - 1) + if Boundary(c, n) then 1 else 0
  }

  lemma {:induction false} NoTurnInside(c: Config, n: nat, m: nat)
    requires c.Valid() && n <= m <= c.Total() && forall k :: n < k <= m ==> !Boundary(c, k)
    ensures Turns(c, m) == Turns(c, n)
    decreases m
  {
    if n < m {
      NoTurnInside(c, n, m - 1);
    }
  }

  lemma {:induction false} TurnEnds(c: Config, n: nat, m: nat)
    requires c.Valid() && NextBoundary(c, n, m)
    ensures Turns(c, m) == Turns(c, n) + 1
  {
    NoTurnInside(c, n, m - 1);
  }

  /** Every reading from start on came before the timeout. */
  ghost predicate InTime(clock: Clock, start: nat, timeout: real)
    reads clock
  {
    forall r: nat :: start <= r < clock.readings && r > start ==> clock.at(r) - clock.at(start) < timeout
  }

  /** The last reading is the first one at or past the timeout. */
  ghost predicate JustTimedOut(clock: Clock, start: nat, timeout: real)
    reads clock
  {
    && clock.readings > start + 1
    && clock.at(clock.readings - 1) - clock.at(start) >= timeout
    && forall r: nat :: start < r < clock.readings - 1 ==> clock.at(r) - clock.at(start) < timeout
  }

  lemma {:induction false} ChunkLog(before: seq<Tick>, after: seq<Tick>, from: nat, inLoop: nat, chord: Chord,
                                    renderFirst: bool)
    requires from <= |before| < inLoop <= |after| && before <= after
    requires LogOk(before[from..]) && (LastChord({}, before[from..]) != chord ==> renderFirst)
    requires ChunkTicks(after[|before|..inLoop], chord, renderFirst)
    ensures LogOk(after[from..inLoop]) && LastChord({}, after[from..inLoop]) == chord
    ensures inLoop == |after| ==> after[from..inLoop] == after[from..]
  {
    assert after[from..inLoop] == before[from..] + after[|before|..inLoop];
    ChangesAppend({}, before[from..], after[|before|..inLoop], chord);
  }

  /** The loop's counters. */
  datatype Cursor = Cursor(
    advanced: nat, phaseIdx: nat, progress: nat, evalIndex: nat, anyLcd: bool,
    pressed: Chord, chordChanged: bool, steps: seq<StepReport>)
  {
    /** How many phases have been entered. */
    function Entered(phases: seq<Phase>): nat { Min(phaseIdx + 1, |phases|) }
  }

  /** The phases entered so far are reported, and the frames played end inside the last of them. */
  ghost predicate Reported(phases: seq<Phase>, v: Cursor) {
    var entered := v.Entered(phases);
    && v.steps == Reports(phases[..entered])
    && (v.advanced == 0 ==> entered == Min(1, |phases|))
    && (v.advanced > 0 ==> entered > 0 && Frames(phases[..entered - 1]) <= v.advanced <= Frames(phases[..entered]))
  }

  /** The reported phases are exactly those with a frame played, and before anything is played the first. */
  ghost predicate Settled(phases: seq<Phase>, v: Cursor) {
    var entered := v.Entered(phases);
    Reported(phases, v) && (v.advanced > 0 ==> entered > 0 && Frames(phases[..entered - 1]) < v.advanced)
  }

  /** The reported phases are those begun, the one about to be played included. */
  ghost predicate MovedOn(phases: seq<Phase>, v: Cursor) {
    var entered := v.Entered(phases);
    Reported(phases, v) && entered > 0 && v.advanced < Frames(phases[..entered])
  }

  /** Every object agrees with the reference after the frames played, none of which decided. */
  ghost predicate Agrees(c: Config, phases: seq<Phase>, v: Cursor, boy: PyBoy, monitor: Monitor?, plan: ScreenshotPlan?,
                         kept: seq<Shot>, lcd: nat, from: nat)
    requires c.Valid()
    reads boy, monitor, plan
  {
    && Between(c, v.advanced, boy, lcd, from) && boy.held == v.pressed
    && Run(c, v.advanced).fired.None? && Kept(Run(c, v.advanced), monitor, plan, kept)
    && v.evalIndex == |Run(c, v.advanced).shown| && (v.anyLcd <==> c.AnyLcd(v.advanced))
    && Boundary(c, v.advanced) && Reported(phases, v)
  }

  /** Ready for the next chunk: its chord is held, and the flag tells whether it is new. */
  ghost predicate Poised(c: Config, phases: seq<Phase>, v: Cursor, boy: PyBoy, from: nat)
    reads boy
  {
    v.advanced < c.Total() ==>
      && InPhase(phases, v.phaseIdx, v.progress, v.advanced)
      && v.pressed == c.slots[v.advanced].Chord() && v.chordChanged == c.ChordChanges(v.advanced + 1)
      && from <= |boy.ticks| && (LastChord({}, boy.ticks[from..]) != v.pressed ==> v.chordChanged)
  }

  /** A chunk has been played and its phase may be over. */
  ghost predicate Rested(c: Config, phases: seq<Phase>, v: Cursor, boy: PyBoy, from: nat)
    reads boy
  {
    && v.phaseIdx < |phases| && 0 < v.progress <= phases[v.phaseIdx].frames
    && v.advanced == Frames(phases[..v.phaseIdx]) + v.progress <= c.Total() && !v.chordChanged
    && v.pressed == ChordOf(phases[v.phaseIdx].buttons)
    && from <= |boy.ticks| && LastChord({}, boy.ticks[from..]) == v.pressed
  }

  /** One chunk that has been cut, in terms of the reference's run and the whole log of the call. */
  method PlayTurn(boy: PyBoy, monitor: Monitor?, plan: ScreenshotPlan?, play: PlayInput, phase: Phase, total: nat,
                  v: Cursor, end: nat, needEval: bool, want: bool, stepShot: bool, ghost c: Config,
                  ghost kept: seq<Shot>, ghost lcd: nat, ghost from: nat)
    returns (r: Chunk, rendered: bool, ghost inLoop: nat)
    requires c.Valid() && Wired(c, play, monitor, plan) && v.advanced < total == c.Total()
    requires Between(c, v.advanced, boy, lcd, from) && boy.held == v.pressed == c.slots[v.advanced].Chord()
    requires Run(c, v.advanced).fired.None? && Kept(Run(c, v.advanced), monitor, plan, kept)
    requires v.evalIndex == |Run(c, v.advanced).shown| && v.chordChanged == c.ChordChanges(v.advanced + 1)
    requires LastChord({}, boy.ticks[from..]) != v.pressed ==> v.chordChanged
    requires IsChunk(c, v.advanced, end) && phase.stepIndex == c.slots[end - 1].stepIndex
    requires needEval == c.IsEval(end) && want == c.Wanted(end) && stepShot == c.StepShot(end)
    modifies boy, monitor, plan
    ensures boy.Valid() && from < inLoop <= |boy.ticks|
    ensures LogOk(boy.ticks[from..inLoop]) && LastChord({}, boy.ticks[from..inLoop]) == v.pressed
    ensures r.Died? ==> boy.held == {} && DiedSomewhere(c, boy)
    ensures r.Going? ==>
              && inLoop == |boy.ticks| && boy.ticks[from..inLoop] == boy.ticks[from..] && rendered == c.NeedsLcd(end)
              && boy.frames == c.Picture(end) && boy.lcdAt == LcdAt(c, end, lcd) && boy.held == v.pressed
              && Run(c, end).fired.None? && Kept(Run(c, end), monitor, plan, kept)
              && r.evalIndex == |Run(c, end).shown|
    ensures r.Stopped? ==>
              && StoppedAt(c, end, r.decision, r.advanced, boy, monitor, plan, kept)
              && (if c.mash then GapTicks(boy.ticks[inLoop..]) else inLoop == |boy.ticks|)
  {
    ghost var before := boy.ticks;
    r, rendered, inLoop := PlayChunk(boy, monitor, plan, play, phase, v.advanced, end, total, needEval, want, stepShot,
                                     v.pressed, v.chordChanged, v.evalIndex, c, Run(c, v.advanced), kept, lcd);
    ChunkLog(before, boy.ticks, from, inLoop, v.pressed, v.chordChanged);
    RunChunk(c, v.advanced, end);
  }

  /** One pass of the loop body between its two looks at the clock. */
  method Turn(boy: PyBoy, monitor: Monitor?, plan: ScreenshotPlan?, play: PlayInput, phases: seq<Phase>, interval: nat,
              total: nat, v: Cursor, ghost c: Config, ghost kept: seq<Shot>, ghost lcd: nat, ghost from: nat)
    returns (r: Chunk, w: Cursor, ghost inLoop: nat)
    requires c.Valid() && Wired(c, play, monitor, plan) && c.interval == interval
    requires total == c.Total() && c.slots == Slots(phases) && v.advanced < total
    requires Agrees(c, phases, v, boy, monitor, plan, kept, lcd, from) && Poised(c, phases, v, boy, from)
    modifies boy, monitor, plan
    ensures boy.Valid() && from <= inLoop <= |boy.ticks| && v.advanced < w.advanced <= c.Total()
    ensures LogOk(boy.ticks[from..inLoop]) && Turns(c, w.advanced) == Turns(c, v.advanced) + 1
    ensures r.Died? ==> boy.held == {} && DiedSomewhere(c, boy)
    ensures r.Going? ==>
              && Agrees(c, phases, w, boy, monitor, plan, kept, lcd, from) && Rested(c, phases, w, boy, from)
              && inLoop == |boy.ticks|
    ensures r.Stopped? ==>
              && Boundary(c, w.advanced) && Settled(phases, w)
              && StoppedAt(c, w.advanced, r.decision, r.advanced, boy, monitor, plan, kept)
              && LastChord({}, boy.ticks[from..inLoop]) == c.slots[w.advanced - 1].Chord()
              && (if c.mash then GapTicks(boy.ticks[inLoop..]) else inLoop == |boy.ticks|)
  {
    var end, needEval, want, stepShot := CutChunk(plan, play, phases[v.phaseIdx], v.progress, interval, v.advanced,
                                                  total, phases, v.phaseIdx, c);
    var rendered;
    r, rendered, inLoop := PlayTurn(boy, monitor, plan, play, phases[v.phaseIdx], total, v, end, needEval, want,
                                    stepShot, c, kept, lcd, from);
    w := v.(advanced := end, progress := v.progress + (end - v.advanced), chordChanged := false,
            anyLcd := v.anyLcd || rendered, evalIndex := if r.Going? then r.evalIndex else v.evalIndex);
    ChunkPlayed(c, v.advanced, end, lcd);
    ChunkReported(c, phases, v, w);
    TurnEnds(c, v.advanced, end);
  }

  lemma {:induction false} ChunkReported(c: Config, phases: seq<Phase>, v: Cursor, w: Cursor)
    requires c.Valid() && c.slots == Slots(phases) && InPhase(phases, v.phaseIdx, v.progress, v.advanced)
    requires Reported(phases, v) && w.steps == v.steps && w.phaseIdx == v.phaseIdx
    requires v.advanced < w.advanced && w.progress - v.progress == w.advanced - v.advanced
    requires w.progress <= phases[v.phaseIdx].frames
    requires w.progress == phases[v.phaseIdx].frames || (w.advanced <= c.Total() && c.NeedsLcd(w.advanced))
    ensures w.advanced <= c.Total() && Boundary(c, w.advanced) && Settled(phases, w)
    ensures c.slots[v.advanced].Chord() == ChordOf(phases[v.phaseIdx].buttons)
  {
    PhaseSlots(phases, v.phaseIdx, v.progress, v.advanced);
    assert c.slots[w.advanced - 1] == SlotOf(phases[v.phaseIdx], w.progress - 1);
  }

  /** The call was decided after n frames of the schedule. */
  ghost predicate StoppedAt(c: Config, n: nat, decision: Decision, advanced: nat, boy: PyBoy, monitor: Monitor?,
                            plan: ScreenshotPlan?, kept: seq<Shot>)
    requires c.Valid()
    reads boy, monitor, plan
  {
    && n <= c.Total() && Run(c, n).n == n && Run(c, n).fired == Some(decision)
    && advanced == n + RestGap(c, Run(c, n)) && boy.held == {} && boy.frames == Played(c, Run(c, n))
    && (monitor != null ==> monitor.shown == Run(c, n).shown)
    && (plan != null ==> plan.records == kept + CallRecords(c, Run(c, n), c.past))
  }

  /** Presses the next phase's chord and reports it. */
  method EnterPhase(boy: PyBoy, monitor: Monitor?, plan: ScreenshotPlan?, phases: seq<Phase>, v: Cursor,
                    ghost c: Config, ghost kept: seq<Shot>, ghost lcd: nat, ghost from: nat)
    returns (w: Cursor)
    requires c.Valid() && c.slots == Slots(phases) && forall p :: p in phases ==> p.frames > 0
    requires Agrees(c, phases, v, boy, monitor, plan, kept, lcd, from) && Rested(c, phases, v, boy, from)
    requires v.progress == phases[v.phaseIdx].frames && v.phaseIdx + 1 < |phases| && v.advanced < c.Total()
    modifies boy`held
    ensures w.advanced == v.advanced
    ensures Agrees(c, phases, w, boy, monitor, plan, kept, lcd, from) && Poised(c, phases, w, boy, from)
  {
    var next := phases[v.phaseIdx + 1];
    SlotlessStep(phases, v.phaseIdx);
    EnterNext(c, phases, v);
    ReportNext(phases, v);
    var pressed, changed := SetButtons(boy, v.pressed, next.buttons);
    w := v.(phaseIdx := v.phaseIdx + 1, progress := 0, pressed := pressed, chordChanged := changed,
            steps := v.steps + Report(next));
  }

  /** Moves on to the next phase when the current one is over. */
  method Enter(boy: PyBoy, monitor: Monitor?, plan: ScreenshotPlan?, phases: seq<Phase>, total: nat, v: Cursor,
               ghost c: Config, ghost kept: seq<Shot>, ghost lcd: nat, ghost from: nat)
    returns (w: Cursor)
    requires c.Valid() && total == c.Total() && c.slots == Slots(phases) && forall p :: p in phases ==> p.frames > 0
    requires Agrees(c, phases, v, boy, monitor, plan, kept, lcd, from) && Rested(c, phases, v, boy, from)
    modifies boy`held
    ensures w.advanced == v.advanced
    ensures Agrees(c, phases, w, boy, monitor, plan, kept, lcd, from) && Poised(c, phases, w, boy, from)
  {
    if v.progress < phases[v.phaseIdx].frames {
      StayInPhase(c, phases, v);
      return v;
    }
    if v.phaseIdx + 1 < |phases| && v.advanced < total {
      w := EnterPhase(boy, monitor, plan, phases, v, c, kept, lcd, from);
    } else {
      LastPhase(c, phases, v);
      w := v.(phaseIdx := v.phaseIdx + 1, progress := 0);
    }
  }

  /** The counters of Rested, without the objects. */
  ghost predicate Counted(c: Config, phases: seq<Phase>, v: Cursor) {
    && v.phaseIdx < |phases| && 0 < v.progress <= phases[v.phaseIdx].frames
    && v.advanced == Frames(phases[..v.phaseIdx]) + v.progress <= c.Total()
    && v.pressed == ChordOf(phases[v.phaseIdx].buttons) && Reported(phases, v)
  }

  lemma {:induction false} StayInPhase(c: Config, phases: seq<Phase>, v: Cursor)
    requires c.slots == Slots(phases) && Counted(c, phases, v) && v.progress < phases[v.phaseIdx].frames
    ensures InPhase(phases, v.phaseIdx, v.progress, v.advanced) && v.advanced < c.Total()
    ensures v.pressed == c.slots[v.advanced].Chord() && !c.ChordChanges(v.advanced + 1)
  {
    PhaseSlots(phases, v.phaseIdx, v.progress, v.advanced);
  }

  lemma {:induction false} EnterNext(c: Config, phases: seq<Phase>, v: Cursor)
    requires c.slots == Slots(phases) && Counted(c, phases, v) && v.progress == phases[v.phaseIdx].frames
    requires v.phaseIdx + 1 < |phases| && v.advanced < c.Total() && forall p :: p in phases ==> p.frames > 0
    ensures var next := phases[v.phaseIdx + 1];
            && InPhase(phases, v.phaseIdx + 1, 0, v.advanced)
            && c.slots[v.advanced].Chord() == ChordOf(next.buttons)
            && (c.ChordChanges(v.advanced + 1) <==> ChordOf(next.buttons) != v.pressed)
  {
    SlotAt(phases, v.phaseIdx, v.progress - 1);
    SlotAt(phases, v.phaseIdx + 1, 0);
    var last, first := c.slots[v.advanced - 1], c.slots[v.advanced];
    assert last == SlotOf(phases[v.phaseIdx], v.progress - 1) && first == SlotOf(phases[v.phaseIdx + 1], 0);
    assert phases[v.phaseIdx + 1] in phases;
  }

  lemma {:induction false} ReportNext(phases: seq<Phase>, v: Cursor)
    requires v.phaseIdx + 1 < |phases| && Reported(phases, v) && v.advanced == Frames(phases[..v.phaseIdx + 1]) > 0
    ensures Reported(phases, v.(phaseIdx := v.phaseIdx + 1, progress := 0,
                                steps := v.steps + Report(phases[v.phaseIdx + 1])))
  {
    ReportsNext(phases, v.phaseIdx + 1);
    SlotlessStep(phases, v.phaseIdx + 1);
  }

  lemma {:induction false} SlotlessStep(phases: seq<Phase>, k: nat)
    requires k < |phases|
    ensures Frames(phases[..k + 1]) == Frames(phases[..k]) + phases[k].frames
  {
    assert phases[..k + 1][..k] == phases[..k];
  }

  lemma {:induction false} LastPhase(c: Config, phases: seq<Phase>, v: Cursor)
    requires c.slots == Slots(phases) && Counted(c, phases, v) && v.progress == phases[v.phaseIdx].frames
    requires v.phaseIdx + 1 == |phases| || v.advanced == c.Total()
    requires forall p :: p in phases ==> p.frames > 0
    ensures v.advanced == c.Total() && Reported(phases, v.(phaseIdx := v.phaseIdx + 1, progress := 0))
  {
    PhaseSlots(phases, v.phaseIdx, v.progress - 1, v.advanced - 1);
    assert phases[..|phases|] == phases;
    if v.phaseIdx + 1 < |phases| {
      NothingLeft(phases, v.phaseIdx + 1);
    }
  }

  /** Phases have frames, so a call that has played them all has entered them all. */
  lemma {:induction false} NothingLeft(phases: seq<Phase>, idx: nat)
    requires idx < |phases| && forall p :: p in phases ==> p.frames > 0
    ensures Frames(phases[..idx]) < Frames(phases)
  {
    assert phases[idx] in phases;
    SlotAt(phases, idx, 0);
  }

  lemma {:induction false} AllEntered(c: Config, phases: seq<Phase>, v: Cursor)
    requires c.slots == Slots(phases) && Reported(phases, v) && v.advanced >= c.Total()
    requires forall p :: p in phases ==> p.frames > 0
    ensures Settled(phases, v)
  {
    if v.advanced > 0 {
      NothingLeft(phases, v.Entered(phases) - 1);
    }
  }

  method Begin(boy: PyBoy, monitor: Monitor?, plan: ScreenshotPlan?, phases: seq<Phase>, ghost c: Config,
               ghost kept: seq<Shot>, ghost lcd: nat, ghost from: nat)
    returns (v: Cursor)
    requires c.Valid() && c.slots == Slots(phases) && forall p :: p in phases ==> p.frames > 0
    requires boy.held == {} && Between(c, 0, boy, lcd, from) && from == |boy.ticks|
    requires Kept(Run(c, 0), monitor, plan, kept)
    modifies boy`held
    ensures v.advanced == 0
    ensures Agrees(c, phases, v, boy, monitor, plan, kept, lcd, from) && Poised(c, phases, v, boy, from)
  {
    v := Cursor(0, 0, 0, 0, false, {}, false, []);
    if phases != [] {
      FirstPhase(phases);
      PhaseSlots(phases, 0, 0, 0);
      ReportsNext(phases, 0);
      var pressed, changed := SetButtons(boy, {}, phases[0].buttons);
      v := v.(pressed := pressed, chordChanged := changed,
              steps := Report(phases[0]));
    }
  }

  /** One look at the clock. */
  method Late(clock: Clock, start: real, timeout: real, ghost first: nat) returns (late: bool)
    requires first < clock.readings && InTime(clock, first, timeout) && start == clock.at(first)
    modifies clock
    ensures clock.readings == old(clock.readings) + 1
    ensures if late then JustTimedOut(clock, first, timeout) else InTime(clock, first, timeout)
  {
    var now := clock.Now();
    late := now - start >= timeout;
  }

  /** How the loop may end. */
  ghost predicate Ended(e: LoopEnd, v: Cursor, c: Config, phases: seq<Phase>, boy: PyBoy, monitor: Monitor?,
                        plan: ScreenshotPlan?, clock: Clock, kept: seq<Shot>, lcd: nat, from: nat, first: nat,
                        timeout: real, inLoop: nat)
    requires c.Valid()
    reads boy, monitor, plan, clock
  {
    && boy.Valid() && from <= inLoop <= |boy.ticks| && LogOk(boy.ticks[from..inLoop])
    && (if e.LoopTimedOut? then JustTimedOut(clock, first, timeout) else InTime(clock, first, timeout))
    && match e
       case LoopDied => boy.held == {} && DiedSomewhere(c, boy)
       case LoopDecided(decision, advanced) =>
         && 0 < v.advanced <= c.Total() && Boundary(c, v.advanced) && Settled(phases, v)
         && StoppedAt(c, v.advanced, decision, advanced, boy, monitor, plan, kept)
         && clock.readings == first + 2 * Turns(c, v.advanced)
         && LastChord({}, boy.ticks[from..inLoop]) == c.slots[v.advanced - 1].Chord()
         && (if c.mash then GapTicks(boy.ticks[inLoop..]) else inLoop == |boy.ticks|)
       case LoopTimedOut =>
         && Agrees(c, phases, v, boy, monitor, plan, kept, lcd, from) && inLoop == |boy.ticks|
         && (|| (clock.readings == first + 1 + 2 * Turns(c, v.advanced) && Settled(phases, v))
             || (clock.readings == first + 2 + 2 * Turns(c, v.advanced) && MovedOn(phases, v)))
       case LoopFinished =>
         && Agrees(c, phases, v, boy, monitor, plan, kept, lcd, from) && inLoop == |boy.ticks|
         && v.advanced == c.Total() && clock.readings == first + 1 + 2 * Turns(c, v.advanced) && Settled(phases, v)
  }

  /** The second look at the clock, and the next phase. */
  method AfterTurn(boy: PyBoy, monitor: Monitor?, plan: ScreenshotPlan?, clock: Clock, start: real, timeout: real,
                   phases: seq<Phase>, total: nat, v: Cursor, ghost c: Config, ghost kept: seq<Shot>, ghost lcd: nat,
                   ghost from: nat, ghost first: nat)
    returns (e: Option<LoopEnd>, w: Cursor, ghost inLoop: nat)
    requires c.Valid() && total == c.Total() && c.slots == Slots(phases) && forall p :: p in phases ==> p.frames > 0
    requires Agrees(c, phases, v, boy, monitor, plan, kept, lcd, from) && Rested(c, phases, v, boy, from)
    requires start == clock.at(first) && first < clock.readings && InTime(clock, first, timeout)
    requires clock.readings == first + 2 * Turns(c, v.advanced)
    modifies boy`held, clock
    ensures w.advanced == v.advanced
    ensures e.Some? ==> Ended(e.value, w, c, phases, boy, monitor, plan, clock, kept, lcd, from, first, timeout, inLoop)
    ensures e.None? ==>
              && Agrees(c, phases, w, boy, monitor, plan, kept, lcd, from) && Poised(c, phases, w, boy, from)
              && clock.readings == first + 1 + 2 * Turns(c, w.advanced) && InTime(clock, first, timeout)
  {
    inLoop := |boy.ticks|;
    assert boy.ticks[from..inLoop] == boy.ticks[from..];
    var late := Late(clock, start, timeout, first);
    if late {
      return Some(LoopTimedOut), v, inLoop;
    }
    w := Enter(boy, monitor, plan, phases, total, v, c, kept, lcd, from);
    e := None;
  }

  /** The first look at the clock. */
  method BeforeTurn(boy: PyBoy, monitor: Monitor?, plan: ScreenshotPlan?, clock: Clock, start: real, timeout: real,
                    phases: seq<Phase>, v: Cursor, ghost c: Config, ghost kept: seq<Shot>, ghost lcd: nat,
                    ghost from: nat, ghost first: nat)
    returns (late: bool)
    requires c.Valid() && Agrees(c, phases, v, boy, monitor, plan, kept, lcd, from)
    requires Poised(c, phases, v, boy, from) && v.advanced < c.Total()
    requires start == clock.at(first) && InTime(clock, first, timeout)
    requires clock.readings == first + 1 + 2 * Turns(c, v.advanced)
    modifies clock
    ensures late ==> Ended(LoopTimedOut, v, c, phases, boy, monitor, plan, clock, kept, lcd, from, first, timeout,
                           |boy.ticks|)
    ensures !late ==> clock.readings == old(clock.readings) + 1 && InTime(clock, first, timeout)
  {
    assert boy.ticks[from..|boy.ticks|] == boy.ticks[from..];
    SlotlessStep(phases, v.phaseIdx);
    late := Late(clock, start, timeout, first);
  }

  /** A turn, and whether it ended the loop. */
  method TurnOrEnd(boy: PyBoy, monitor: Monitor?, plan: ScreenshotPlan?, play: PlayInput, phases: seq<Phase>,
                   interval: nat, total: nat, v: Cursor, clock: Clock, ghost c: Config, ghost kept: seq<Shot>,
                   ghost lcd: nat, ghost from: nat, ghost first: nat)
    returns (e: Option<LoopEnd>, w: Cursor, ghost inLoop: nat)
    requires c.Valid() && Wired(c, play, monitor, plan) && c.interval == interval
    requires total == c.Total() && c.slots == Slots(phases) && v.advanced < total
    requires Agrees(c, phases, v, boy, monitor, plan, kept, lcd, from) && Poised(c, phases, v, boy, from)
    requires InTime(clock, first, play.callTimeoutSeconds)
    requires clock.readings == first + 2 + 2 * Turns(c, v.advanced)
    modifies boy, monitor, plan
    ensures v.advanced < w.advanced <= c.Total() && Turns(c, w.advanced) == Turns(c, v.advanced) + 1
    ensures e.Some? ==>
              Ended(e.value, w, c, phases, boy, monitor, plan, clock, kept, lcd, from, first, play.callTimeoutSeconds,
                    inLoop)
    ensures e.None? ==>
              Agrees(c, phases, w, boy, monitor, plan, kept, lcd, from) && Rested(c, phases, w, boy, from)
  {
    var r;
    r, w, inLoop := Turn(boy, monitor, plan, play, phases, interval, total, v, c, kept, lcd, from);
    match r {
      case Died => e := Some(LoopDied);
      case Stopped(decision, advanced) => e := Some(LoopDecided(decision, advanced));
      case Going(_) => e := None;
    }
  }

  /** One pass of the loop. */
  method Pass(boy: PyBoy, monitor: Monitor?, plan: ScreenshotPlan?, play: PlayInput, clock: Clock, start: real,
              phases: seq<Phase>, interval: nat, total: nat, v: Cursor, ghost c: Config, ghost kept: seq<Shot>,
              ghost lcd: nat, ghost from: nat, ghost first: nat)
    returns (e: Option<LoopEnd>, w: Cursor, ghost inLoop: nat)
    requires c.Valid() && Wired(c, play, monitor, plan) && c.interval == interval
    requires total == c.Total() && c.slots == Slots(phases) && forall p :: p in phases ==> p.frames > 0
    requires Agrees(c, phases, v, boy, monitor, plan, kept, lcd, from) && Poised(c, phases, v, boy, from)
    requires v.advanced < total && start == clock.at(first)
    requires clock.readings == first + 1 + 2 * Turns(c, v.advanced) && InTime(clock, first, play.callTimeoutSeconds)
    modifies boy, monitor, plan, clock
    ensures e.Some? ==>
              Ended(e.value, w, c, phases, boy, monitor, plan, clock, kept, lcd, from, first, play.callTimeoutSeconds,
                    inLoop)
    ensures e.None? ==>
              && Agrees(c, phases, w, boy, monitor, plan, kept, lcd, from) && Poised(c, phases, w, boy, from)
              && clock.readings == first + 1 + 2 * Turns(c, w.advanced)
              && InTime(clock, first, play.callTimeoutSeconds) && w.advanced > v.advanced
  {
    var late := BeforeTurn(boy, monitor, plan, clock, start, play.callTimeoutSeconds, phases, v, c, kept, lcd, from,
                           first);
    if late {
      return Some(LoopTimedOut), v, |boy.ticks|;
    }
    e, w, inLoop := TurnOrEnd(boy, monitor, plan, play, phases, interval, total, v, clock, c, kept, lcd, from, first);
    if e.None? {
      e, w, inLoop := AfterTurn(boy, monitor, plan, clock, start, play.callTimeoutSeconds, phases, total, w, c, kept,
                                lcd, from, first);
    }
  }

  method PlayLoop(boy: PyBoy, monitor: Monitor?, plan: ScreenshotPlan?, play: PlayInput, clock: Clock, start: real,
                  phases: seq<Phase>, interval: nat, total: nat, ghost c: Config, ghost kept: seq<Shot>, ghost lcd: nat,
                  ghost from: nat, ghost first: nat)
    returns (e: LoopEnd, v: Cursor, ghost inLoop: nat)
    requires c.Valid() && Wired(c, play, monitor, plan) && c.interval == interval
    requires total == c.Total() && c.slots == Slots(phases) && forall p :: p in phases ==> p.frames > 0
    requires boy.held == {} && Between(c, 0, boy, lcd, from) && from == |boy.ticks|
    requires Kept(Run(c, 0), monitor, plan, kept)
    requires clock.readings == first + 1 && start == clock.at(first)
    modifies boy, monitor, plan, clock
    ensures Ended(e, v, c, phases, boy, monitor, plan, clock, kept, lcd, from, first, play.callTimeoutSeconds, inLoop)
  {
    v := Begin(boy, monitor, plan, phases, c, kept, lcd, from);
    while v.advanced < total
      invariant Agrees(c, phases, v, boy, monitor, plan, kept, lcd, from) && Poised(c, phases, v, boy, from)
      invariant clock.readings == first + 1 + 2 * Turns(c, v.advanced)
      invariant InTime(clock, first, play.callTimeoutSeconds)
      decreases total - v.advanced
    {
      var ended;
      ended, v, inLoop := Pass(boy, monitor, plan, play, clock, start, phases, interval, total, v, c, kept, lcd, from,
                               first);
      if ended.Some? {
        return ended.value, v, inLoop;
      }
    }
    inLoop := |boy.ticks|;
    assert boy.ticks[from..inLoop] == boy.ticks[from..];
    AllEntered(c, phases, v);
    e := LoopFinished;
  }

  // ---------------------------------------------------------------------------------------------
  // The whole call

  datatype Stop = Completed | ReachedMaxFrames | CallTimeout | Decided(reason: string)

  datatype PlayResult =
    | EmulatorDied
    | Finished(framesAdvanced: nat, stop: Stop, stopDetail: Option<string>, untilFired: bool, steps: seq<StepReport>)

  ghost function WantsOf(plan: ScreenshotPlan?): Option<Wants> { if plan == null then None else Some(plan.wants) }

  ghost function DecideOf(monitor: Monitor?): Option<Decide> { if monitor == null then None else Some(monitor.decide) }

  /** The reason, detail and flag a call reports for where it stopped. */
  ghost predicate StopReported(c: Config, play: PlayInput, o: Obs, r: PlayResult, timedOut: bool)
    requires c.Valid() && r.Finished?
  {
    match o.fired
    case Some(d) => !timedOut && r.stop == Decided(d.reason) && r.stopDetail == d.detail && r.untilFired == d.untilFired
    case None =>
      && !r.untilFired && r.stopDetail == None
      && (if timedOut then r.stop == CallTimeout
          else o.n == c.Total() &&
               r.stop == if play.macro in {Hold, Mash} && o.n >= Budget(play) then ReachedMaxFrames else Completed)
  }

  /** The log of a call: legal ticks with every chord change rendered, then the released gap of a
      fired mash, which does not render its first frame, or the one late frame. */
  ghost predicate CallLog(c: Config, o: Obs, added: seq<Tick>, inLoop: nat)
    requires c.Valid() && o.n <= c.Total()
  {
    && inLoop <= |added| && LogOk(added[..inLoop])
    && (o.fired.Some? ==> o.n > 0 && LastChord({}, added[..inLoop]) == c.slots[o.n - 1].Chord())
    && if o.fired.Some? && c.mash then GapTicks(added[inLoop..])
       else added[inLoop..] == if ExtraTick(c, o) then [TickCall(1, true, {})] else []
  }

  /** The late final record: compose a frame if none was, then keep what the LCD shows. */
  method FinalRecord(boy: PyBoy, plan: ScreenshotPlan, advanced: nat, anyLcd: bool, ghost c: Config, ghost o: Obs,
                     ghost kept: seq<Shot>, ghost lcd: nat)
    returns (running: bool)
    requires c.Valid() && boy.Valid() && o.n == advanced <= c.Total() && LateFinal(c, o)
    requires boy.frames == c.Picture(o.n) && boy.lcdAt == LcdAt(c, o.n, lcd) && (anyLcd <==> c.AnyLcd(o.n))
    requires boy.held == {} && plan.records == kept + o.records && lcd <= |c.past|
    modifies boy, plan
    ensures boy.Valid() && boy.held == {}
    ensures boy.frames == Played(c, o)
    ensures boy.ticks == old(boy.ticks) + if ExtraTick(c, o) then [TickCall(1, true, {})] else []
    ensures if running then plan.records == kept + CallRecords(c, o, c.past[..lcd]) else boy.Stopped()
  {
    running := true;
    assert c.Picture(o.n) + Repeat({}, 0) == c.Picture(o.n);
    if advanced > 0 && !anyLcd {
      running := boy.Tick(1, true);
      if !running {
        return;
      }
    }
    var frame := boy.CaptureNative();
    assert frame == LatePicture(c, o, c.past[..lcd]) by {
      ComposedAny(c, o.n);
      assert c.Picture(o.n)[..|c.past| + c.Composed(o.n)] == c.Picture(c.Composed(o.n));
      assert c.Picture(o.n)[..lcd] == c.past[..lcd];
    }
    plan.Record(advanced, frame, false, true, None);
  }

  /** The phases entered are exactly the reported ones: those with a frame among the n played, and with
      none played the first. A call that times out just before a chunk has already moved on to the phase
      of that chunk. */
  ghost predicate ReportedUpTo(phases: seq<Phase>, entered: nat, n: nat, moved: bool, steps: seq<StepReport>) {
    && entered <= |phases| && steps == Reports(phases[..entered])
    && if n == 0 then entered == Min(1, |phases|)
       else if moved then entered > 0 && Frames(phases[..entered - 1]) <= n < Frames(phases[..entered])
       else entered > 0 && Frames(phases[..entered - 1]) < n <= Frames(phases[..entered])
  }

  /** The clock is read once at the start, before each chunk and after each one that decides nothing: a
      timeout is noticed at the first late reading, and stops the call right there. */
  predicate ClockRead(stop: Stop, readings: int, turns: nat) {
    match stop
    case Decided(_) => readings == 2 * turns
    case CallTimeout => readings == 1 + 2 * turns || readings == 2 + 2 * turns
    case _ => readings == 1 + 2 * turns
  }

  ghost predicate StepsTold(phases: seq<Phase>, n: nat, moved: bool, steps: seq<StepReport>) {
    exists entered :: ReportedUpTo(phases, entered, n, moved, steps)
  }

  /** A timeout noticed before a chunk, not after one. */
  predicate BeforeChunk(stop: Stop, readings: int, turns: nat) { stop == CallTimeout && readings == 2 + 2 * turns }

  /** Everything a finished call guarantees, n being the number of scheduled frames played. */
  ghost predicate CallDone(c: Config, play: PlayInput, phases: seq<Phase>, n: nat, r: PlayResult, boy: PyBoy,
                           monitor: Monitor?, plan: ScreenshotPlan?, clock: Clock, kept: seq<Shot>, lcd: Frame,
                           from: nat, first: nat, inLoop: nat)
    requires c.Valid() && r.Finished?
    reads boy, monitor, plan, clock
  {
    // The reference, run for n frames, stops there and nowhere earlier.
    && n <= c.Total() && Run(c, n).n == n && Boundary(c, n)
    // Same chords, frame by frame, and the same count reported.
    && boy.frames == Played(c, Run(c, n)) && r.framesAdvanced == n + RestGap(c, Run(c, n))
    // Same evaluations and the same records.
    && (monitor != null ==> monitor.shown == Run(c, n).shown)
    && (plan != null ==> plan.records == kept + CallRecords(c, Run(c, n), lcd))
    // Same reason; a timeout is reported exactly when a reading was late, and then the first one.
    && StopReported(c, play, Run(c, n), r, r.stop == CallTimeout)
    && (if r.stop == CallTimeout then JustTimedOut(clock, first, play.callTimeoutSeconds)
        else InTime(clock, first, play.callTimeoutSeconds))
    && ClockRead(r.stop, clock.readings - first, Turns(c, n))
    && StepsTold(phases, n, BeforeChunk(r.stop, clock.readings - first, Turns(c, n)), r.steps)
    && from <= |boy.ticks| && CallLog(c, Run(c, n), boy.ticks[from..], inLoop)
  }

  /** The late final record, if there is a plan and no frame was the last. */
  method LateRecord(boy: PyBoy, plan: ScreenshotPlan?, advanced: nat, anyLcd: bool, total: nat, ghost c: Config,
                    ghost o: Obs, ghost kept: seq<Shot>, ghost lcd: nat)
    returns (running: bool)
    requires c.Valid() && boy.Valid() && o.n == advanced <= c.Total() == total && o.fired.None?
    requires c.plan == WantsOf(plan) && (plan != null ==> plan.records == kept + o.records) && lcd <= |c.past|
    requires boy.frames == c.Picture(o.n) && boy.lcdAt == LcdAt(c, o.n, lcd) && (anyLcd <==> c.AnyLcd(o.n))
    requires boy.held == {}
    modifies boy, plan
    ensures boy.Valid() && boy.held == {}
    ensures !running ==> DiedSomewhere(c, boy)
    ensures running ==> boy.frames == Played(c, o)
    ensures boy.ticks == old(boy.ticks) + if ExtraTick(c, o) then [TickCall(1, true, {})] else []
    ensures running && plan != null ==> plan.records == kept + CallRecords(c, o, c.past[..lcd])
  {
    running := true;
    var finalRecorded := advanced == total > 0;
    assert c.Picture(o.n) + Repeat({}, 0) == c.Picture(o.n);
    if plan != null && !finalRecorded {
      running := FinalRecord(boy, plan, advanced, anyLcd, c, o, kept, lcd);
      if !running {
        assert DiedAfter(c, boy.frames, o.n, if ExtraTick(c, o) then 1 else 0);
      }
    }
  }

  /** The clock and the steps at the end of a loop that nothing decided. */
  ghost predicate Undecided(e: LoopEnd, v: Cursor, c: Config, phases: seq<Phase>, clock: Clock, first: nat,
                            timeout: real)
    requires c.Valid()
    reads clock
  {
    && v.advanced <= c.Total() && Boundary(c, v.advanced) && Run(c, v.advanced).fired.None?
    && match e
       case LoopTimedOut =>
         && JustTimedOut(clock, first, timeout)
         && (|| (clock.readings == first + 1 + 2 * Turns(c, v.advanced) && Settled(phases, v))
             || (clock.readings == first + 2 + 2 * Turns(c, v.advanced) && MovedOn(phases, v)))
       case LoopFinished =>
         && InTime(clock, first, timeout) && v.advanced == c.Total()
         && clock.readings == first + 1 + 2 * Turns(c, v.advanced) && Settled(phases, v)
       case _ => false
  }

  /** What happens after the loop: the stop reason and the late final record. */
  method Conclude(boy: PyBoy, monitor: Monitor?, plan: ScreenshotPlan?, play: PlayInput, clock: Clock, e: LoopEnd,
                  v: Cursor, budget: nat, total: nat, ghost phases: seq<Phase>, ghost c: Config, ghost kept: seq<Shot>,
                  ghost lcd: nat, ghost from: nat, ghost first: nat)
    returns (r: PlayResult)
    requires c.Valid() && Wired(c, play, monitor, plan) && budget == Budget(play) && total == c.Total()
    requires Undecided(e, v, c, phases, clock, first, play.callTimeoutSeconds)
    requires Between(c, v.advanced, boy, lcd, from) && Kept(Run(c, v.advanced), monitor, plan, kept)
    requires boy.held == {} && (v.anyLcd <==> c.AnyLcd(v.advanced)) && lcd <= |c.past|
    modifies boy, plan
    ensures boy.Valid() && boy.held == {}
    ensures r.EmulatorDied? ==> DiedSomewhere(c, boy)
    ensures r.Finished? ==>
              CallDone(c, play, phases, v.advanced, r, boy, monitor, plan, clock, kept, c.past[..lcd], from, first,
                       |old(boy.ticks)| - from)
  {
    ghost var o, was := Run(c, v.advanced), boy.ticks;
    var stop := if e.LoopTimedOut? then CallTimeout
                else if play.macro in {Hold, Mash} && v.advanced >= budget then ReachedMaxFrames else Completed;
    var running := LateRecord(boy, plan, v.advanced, v.anyLcd, total, c, o, kept, lcd);
    if !running {
      return EmulatorDied;
    }
    r := Finished(v.advanced, stop, None, false, v.steps);
    UndecidedDone(boy, monitor, plan, play, clock, e, v, phases, c, kept, c.past[..lcd], from, first, was, r);
  }

  lemma {:induction false} UndecidedDone(boy: PyBoy, monitor: Monitor?, plan: ScreenshotPlan?, play: PlayInput,
                                         clock: Clock, e: LoopEnd, v: Cursor, phases: seq<Phase>, c: Config,
                                         kept: seq<Shot>, lcd: Frame, from: nat, first: nat, was: seq<Tick>,
                                         r: PlayResult)
    requires c.Valid() && Undecided(e, v, c, phases, clock, first, play.callTimeoutSeconds)
    requires r == Finished(v.advanced, StopAfter(e, v, play), None, false, v.steps)
    requires boy.frames == Played(c, Run(c, v.advanced))
    requires monitor != null ==> monitor.shown == Run(c, v.advanced).shown
    requires plan != null ==> plan.records == kept + CallRecords(c, Run(c, v.advanced), lcd)
    requires from <= |was| && LogOk(was[from..])
    requires boy.ticks == was + if ExtraTick(c, Run(c, v.advanced)) then [TickCall(1, true, {})] else []
    ensures CallDone(c, play, phases, v.advanced, r, boy, monitor, plan, clock, kept, lcd, from, first, |was| - from)
  {
    QuietLog(c, Run(c, v.advanced), was, boy.ticks, from);
    UndecidedSteps(c, phases, v, r, clock.readings - first);
  }

  /** The reason reported when nothing decided the call. */
  function StopAfter(e: LoopEnd, v: Cursor, play: PlayInput): Stop {
    if e.LoopTimedOut? then CallTimeout
    else if play.macro in {Hold, Mash} && v.advanced >= Budget(play) then ReachedMaxFrames
    else Completed
  }

  lemma {:induction false} QuietLog(c: Config, o: Obs, was: seq<Tick>, now: seq<Tick>, from: nat)
    requires c.Valid() && o.n <= c.Total() && o.fired.None? && from <= |was| && LogOk(was[from..])
    requires now == was + if ExtraTick(c, o) then [TickCall(1, true, {})] else []
    ensures from <= |now| && CallLog(c, o, now[from..], |was| - from)
  {
    assert now[from..][..|was| - from] == was[from..];
    assert now[from..][|was| - from..] == now[|was|..];
  }

  lemma {:induction false} UndecidedSteps(c: Config, phases: seq<Phase>, v: Cursor, r: PlayResult, readings: int)
    requires c.Valid() && v.advanced <= c.Total() && r.Finished? && r.steps == v.steps
    requires || (readings != 2 + 2 * Turns(c, v.advanced) && Settled(phases, v))
             || (readings == 2 + 2 * Turns(c, v.advanced) && r.stop == CallTimeout && MovedOn(phases, v))
    ensures StepsTold(phases, v.advanced, BeforeChunk(r.stop, readings, Turns(c, v.advanced)), r.steps)
  {
    assert ReportedUpTo(phases, v.Entered(phases), v.advanced, BeforeChunk(r.stop, readings, Turns(c, v.advanced)),
                        r.steps);
  }

  /** A decided call already has its records and its released buttons. */
  lemma {:induction false} DecidedDone(boy: PyBoy, monitor: Monitor?, plan: ScreenshotPlan?, play: PlayInput,
                                       clock: Clock, e: LoopEnd, v: Cursor, phases: seq<Phase>, c: Config,
                                       kept: seq<Shot>, lcd: nat, from: nat, first: nat, inLoop: nat, r: PlayResult)
    requires c.Valid() && e.LoopDecided? && lcd <= |c.past|
    requires Ended(e, v, c, phases, boy, monitor, plan, clock, kept, lcd, from, first, play.callTimeoutSeconds, inLoop)
    requires r == Finished(e.advanced, Decided(e.decision.reason), e.decision.detail, e.decision.untilFired, v.steps)
    ensures CallDone(c, play, phases, v.advanced, r, boy, monitor, plan, clock, kept, c.past[..lcd], from, first,
                     inLoop - from)
  {
    assert ReportedUpTo(phases, v.Entered(phases), v.advanced,
                        BeforeChunk(r.stop, clock.readings - first, Turns(c, v.advanced)), r.steps);
    assert boy.ticks[from..][..inLoop - from] == boy.ticks[from..inLoop];
    assert boy.ticks[from..][inLoop - from..] == boy.ticks[inLoop..];
  }

  /** The buttons are released after a loop that nothing decided, and the call is concluded. */
  method LetGo(boy: PyBoy, monitor: Monitor?, plan: ScreenshotPlan?, play: PlayInput, clock: Clock, e: LoopEnd,
               v: Cursor, budget: nat, total: nat, ghost phases: seq<Phase>, ghost c: Config, ghost kept: seq<Shot>,
               ghost lcd: nat, ghost from: nat, ghost first: nat)
    returns (r: PlayResult)
    requires c.Valid() && Wired(c, play, monitor, plan) && budget == Budget(play) && total == c.Total()
    requires Undecided(e, v, c, phases, clock, first, play.callTimeoutSeconds)
    requires Agrees(c, phases, v, boy, monitor, plan, kept, lcd, from) && lcd <= |c.past|
    modifies boy, plan
    ensures boy.Valid() && boy.held == {}
    ensures r.EmulatorDied? ==> DiedSomewhere(c, boy)
    ensures r.Finished? ==>
              CallDone(c, play, phases, v.advanced, r, boy, monitor, plan, clock, kept, c.past[..lcd], from, first,
                       |old(boy.ticks)| - from)
  {
    ReleaseAll(boy, v.pressed);
    r := Conclude(boy, monitor, plan, play, clock, e, v, budget, total, phases, c, kept, lcd, from, first);
  }

  /** The buttons are released on every way out, then the result is put together. */
  method AfterLoop(boy: PyBoy, monitor: Monitor?, plan: ScreenshotPlan?, play: PlayInput, clock: Clock, e: LoopEnd,
                   v: Cursor, budget: nat, total: nat, ghost phases: seq<Phase>, ghost c: Config, ghost kept: seq<Shot>,
                   ghost lcd: nat, ghost from: nat, ghost first: nat, ghost inLoop: nat)
    returns (r: PlayResult)
    requires c.Valid() && Wired(c, play, monitor, plan) && budget == Budget(play) && total == c.Total()
    requires lcd <= |c.past|
    requires Ended(e, v, c, phases, boy, monitor, plan, clock, kept, lcd, from, first, play.callTimeoutSeconds, inLoop)
    modifies boy, plan
    ensures boy.Valid() && boy.held == {}
    ensures r.EmulatorDied? ==> DiedSomewhere(c, boy)
    ensures r.Finished? ==>
              CallDone(c, play, phases, v.advanced, r, boy, monitor, plan, clock, kept, c.past[..lcd], from, first,
                       inLoop - from)
  {
    match e {
      case LoopDied => r := EmulatorDied;
      case LoopDecided(decision, advanced) =>
        r := Finished(advanced, Decided(decision.reason), decision.detail, decision.untilFired, v.steps);
        DecidedDone(boy, monitor, plan, play, clock, e, v, phases, c, kept, lcd, from, first, inLoop, r);
      case _ =>
        r := LetGo(boy, monitor, plan, play, clock, e, v, budget, total, phases, c, kept, lcd, from, first);
    }
  }

  /** The loop and what follows it. */
  method LoopThenEnd(boy: PyBoy, play: PlayInput, monitor: Monitor?, plan: ScreenshotPlan?, clock: Clock, start: real,
                     phases: seq<Phase>, budget: nat, interval: nat, ghost c: Config, ghost kept: seq<Shot>,
                     ghost lcd: nat, ghost from: nat, ghost first: nat)
    returns (r: PlayResult, ghost n: nat, ghost inLoop: nat)
    requires c.Valid() && Wired(c, play, monitor, plan) && c.interval == interval
    requires c.slots == Slots(phases) && (forall p :: p in phases ==> p.frames > 0)
    requires budget == Budget(play) && Frames(phases) <= budget && lcd <= |c.past|
    requires boy.held == {} && Between(c, 0, boy, lcd, from) && from == |boy.ticks|
    requires Kept(Run(c, 0), monitor, plan, kept)
    requires clock.readings == first + 1 && start == clock.at(first)
    modifies boy, monitor, plan, clock
    ensures boy.Valid() && boy.held == {}
    ensures r.EmulatorDied? ==> DiedSomewhere(c, boy)
    ensures r.Finished? ==>
              CallDone(c, play, phases, n, r, boy, monitor, plan, clock, kept, c.past[..lcd], from, first, inLoop)
  {
    var total := Min(budget, Frames(phases));
    var e, v;
    e, v, inLoop := PlayLoop(boy, monitor, plan, play, clock, start, phases, interval, total, c, kept, lcd, from,
                             first);
    n := v.advanced;
    r := AfterLoop(boy, monitor, plan, play, clock, e, v, budget, total, phases, c, kept, lcd, from, first, inLoop);
    inLoop := inLoop - from;
  }

  /** A whole call, for phases already laid out. */
  method Drive(boy: PyBoy, play: PlayInput, monitor: Monitor?, plan: ScreenshotPlan?, clock: Clock, phases: seq<Phase>,
               budget: nat, interval: nat, ghost c: Config, ghost kept: seq<Shot>)
    returns (r: PlayResult, ghost n: nat, ghost inLoop: nat)
    requires boy.Valid() && boy.held == {} && (monitor != null ==> monitor.shown == [])
    requires plan != null ==> plan.records == kept
    requires c.Valid() && Wired(c, play, monitor, plan) && c.interval == interval && c.past == boy.frames
    requires c.slots == Slots(phases) && (forall p :: p in phases ==> p.frames > 0)
    requires budget == Budget(play) && Frames(phases) <= budget
    modifies boy, monitor, plan, clock
    ensures boy.Valid() && boy.held == {}
    ensures r.EmulatorDied? ==> DiedSomewhere(c, boy)
    ensures r.Finished? ==>
              CallDone(c, play, phases, n, r, boy, monitor, plan, clock, kept, old(boy.Lcd()), |old(boy.ticks)|,
                       old(clock.readings), inLoop)
  {
    ghost var lcd, from, first := boy.lcdAt, |boy.ticks|, clock.readings;
    assert boy.ticks[from..] == [] && c.Picture(0) == boy.frames && c.past[..lcd] == boy.Lcd();
    var start := clock.Now();
    r, n, inLoop := LoopThenEnd(boy, play, monitor, plan, clock, start, phases, budget, interval, c, kept, lcd, from,
                                first);
  }

  /** Drives one play call. With no timeout it does exactly what the one-frame-at-a-time reference
      does over the whole schedule; with one, what the reference does up to a chunk boundary. */
  method RunPlayInput(boy: PyBoy, play: PlayInput, monitor: Monitor?, plan: ScreenshotPlan?, clock: Clock)
    returns (r: PlayResult, ghost n: nat, ghost inLoop: nat)
    requires boy.Valid() && boy.held == {}
    requires play.macro == Mash ==> play.mashPressFrames + play.mashReleaseFrames > 0
    requires monitor != null ==> monitor.shown == []
    modifies boy, monitor, plan, clock
    ensures boy.Valid() && boy.held == {}
    ensures r.EmulatorDied? ==>
              DiedSomewhere(Setup(play, WantsOf(plan), DecideOf(monitor), old(boy.frames)), boy)
    ensures r.Finished? ==>
              CallDone(Setup(play, WantsOf(plan), DecideOf(monitor), old(boy.frames)), play,
                       PhasesOf(play, Budget(play)), n, r, boy, monitor, plan, clock,
                       if plan == null then [] else old(plan.records), old(boy.Lcd()), |old(boy.ticks)|,
                       old(clock.readings), inLoop)
  {
    ghost var c := Setup(play, WantsOf(plan), DecideOf(monitor), boy.frames);
    ghost var kept: seq<Shot> := if plan == null then [] else plan.records;
    var interval := play.untilEvalInterval;
    var budget := play.maxFrames;
    if budget > MAX_FRAMES_PER_CALL {
      budget := MAX_FRAMES_PER_CALL;
    }
    if interval < 1 {
      interval := 1;
    }
    var phases := PhasesFor(play, budget);
    r, n, inLoop := Drive(boy, play, monitor, plan, clock, phases, budget, interval, c, kept);
  }
}
