/** The frames one play call keeps, and the selection handed back to the caller. */
module Screenshots {
  import opened PlayTypes
  import opened Sampling

  const MAX_SCREENSHOT_ALL := 30

  datatype Labeled = Labeled(shot: Shot, kind: Kind)

  predicate FinalKind(kind: Kind) { kind == FinalShot || kind == InterruptAndFinalShot }

  predicate InterruptKind(kind: Kind) { kind == InterruptShot || kind == InterruptAndFinalShot }

  function ShotsOf(labeled: seq<Labeled>): (shots: seq<Shot>)
    ensures |shots| == |labeled| && forall i :: 0 <= i < |labeled| ==> shots[i] == labeled[i].shot
  {
    seq(|labeled|, i requires 0 <= i < |labeled| => labeled[i].shot)
  }

  /** Only the last entry is of a final kind, and the interrupt kinds are those of interrupts. */
  predicate KindsFit(labeled: seq<Labeled>) {
    forall i :: 0 <= i < |labeled| ==>
      && (FinalKind(labeled[i].kind) <==> i == |labeled| - 1)
      && (InterruptKind(labeled[i].kind) <==> labeled[i].shot.interrupt)
  }

  function MaxIndex(shots: seq<Shot>): (m: nat)
    requires shots != []
    ensures exists s :: s in shots && s.frameIndex == m
    ensures forall s :: s in shots ==> s.frameIndex <= m
  {
    var last := shots[|shots| - 1];
    if |shots| == 1 then assert last in shots; last.frameIndex
    else
      var rest := shots[..|shots| - 1];
      var m := MaxIndex(rest);
      assert forall s :: s in shots <==> s in rest || s == last;
      if last.frameIndex > m then last.frameIndex else m
  }

  /** The first shot marked as the interrupt. */
  function InterruptShotOf(shots: seq<Shot>): (r: Option<Shot>)
    ensures r.Some? ==> r.value in shots && r.value.interrupt
    ensures r.None? ==> forall s :: s in shots ==> !s.interrupt
  {
    if shots == [] then None
    else if shots[0].interrupt then Some(shots[0])
    else
      assert forall s :: s in shots <==> s == shots[0] || s in shots[1..];
      InterruptShotOf(shots[1..])
  }

  function KeyframeKind(s: Shot, lastIndex: nat): Kind {
    if s.interrupt && s.frameIndex != lastIndex then InterruptShot
    else if s.interrupt && s.final then InterruptAndFinalShot
    else if s.frameIndex == lastIndex then (if s.interrupt then InterruptAndFinalShot else FinalShot)
    else KeyframeShot
  }

  predicate HasIndex(shots: seq<Shot>, index: nat) {
    exists s :: s in shots && s.frameIndex == index
  }

  /** Adds the interrupt's shot when its index is not among the picks. */
  function WithInterrupt(picked: seq<Shot>, interrupt: Option<Shot>): (r: seq<Shot>)
    ensures |picked| <= |r| <= |picked| + 1
    ensures forall s :: s in r ==> s in picked || interrupt == Some(s)
    ensures forall s :: s in picked ==> s in r
    ensures interrupt.Some? ==> HasIndex(r, interrupt.value.frameIndex)
    ensures DistinctIndices(picked) ==> DistinctIndices(r)
  {
    if interrupt.Some? && !HasIndex(picked, interrupt.value.frameIndex) then
      assert forall i :: 0 <= i < |picked| ==> picked[i] in picked;
      assert interrupt.value in picked + [interrupt.value];
      picked + [interrupt.value]
    else picked
  }

  /** The greedy picks around the targets, plus the interrupt when its index is not among them. */
  function PicksAround(records: seq<Shot>, targets: seq<nat>): seq<Shot> {
    WithInterrupt(GreedyPick(records, targets), InterruptShotOf(records))
  }

  /** The shots a keyframe selection keeps: one per quarter of the call, plus the interrupt. */
  function KeyframeShots(records: seq<Shot>): seq<Shot>
    requires records != []
  {
    PicksAround(records, Checkpoints(Max(1, MaxIndex(records))))
  }

  lemma {:induction false} PicksAroundCover(records: seq<Shot>, targets: seq<nat>)
    requires records != [] && targets != [] && MaxIndex(records) <= targets[|targets| - 1]
    ensures 1 <= |PicksAround(records, targets)| <= |targets| + 1
    ensures DistinctIndices(PicksAround(records, targets))
    ensures forall s :: s in PicksAround(records, targets) ==> s in records
    ensures HasIndex(PicksAround(records, targets), MaxIndex(records))
    ensures InterruptShotOf(records).Some? ==>
              HasIndex(PicksAround(records, targets), InterruptShotOf(records).value.frameIndex)
  {
    GreedyPickSound(records, targets);
    var top :| top in records && top.frameIndex == MaxIndex(records);
    GreedyPickReachesTop(records, targets, top);
    assert HasIndex(GreedyPick(records, targets), MaxIndex(records));
    assert HasIndex(PicksAround(records, targets), MaxIndex(records));
  }

  /** Halfway through the targets: what is picked, and what picking from the rest will add. */
  ghost predicate Picking(picks: seq<Shot>, picked: seq<Shot>, remaining: seq<Shot>, left: seq<nat>) {
    picks == picked + GreedyPick(remaining, left)
  }

  lemma {:induction false} PickOne(picks: seq<Shot>, picked: seq<Shot>, remaining: seq<Shot>, left: seq<nat>, s: Shot)
    requires remaining != [] && left != [] && s == Closest(remaining, left[0])
    requires Picking(picks, picked, remaining, left)
    ensures Picking(picks, picked + [s], Without(remaining, s.frameIndex), left[1..])
  {
    PrefixMoves(picked, s, GreedyPick(Without(remaining, s.frameIndex), left[1..]));
  }

  lemma {:induction false} PickEnd(picks: seq<Shot>, picked: seq<Shot>, remaining: seq<Shot>, left: seq<nat>)
    requires Picking(picks, picked, remaining, left) && (left == [] || remaining == [])
    ensures picks == picked
  {
    assert GreedyPick(remaining, left) == [];
  }

  lemma {:induction false} PrefixMoves<T>(a: seq<T>, x: T, b: seq<T>)
    ensures a + ([x] + b) == (a + [x]) + b
  {
  }

  function Indices(shots: seq<Shot>): set<nat> { set s | s in shots :: s.frameIndex }

  lemma {:induction false} IndicesSnoc(picked: seq<Shot>, s: Shot)
    ensures Indices(picked + [s]) == Indices(picked) + {s.frameIndex}
  {
    assert forall t :: t in picked + [s] <==> t in picked || t == s;
  }

  lemma {:induction false} SortedTop(picked: seq<Shot>, sorted: seq<Shot>)
    requires sorted != [] && Ascending(sorted)
    requires forall s :: s in sorted <==> s in picked
    ensures HasIndex(picked, sorted[|sorted| - 1].frameIndex)
    ensures forall s :: s in picked ==> s.frameIndex <= sorted[|sorted| - 1].frameIndex
    ensures MaxIndex(sorted) == sorted[|sorted| - 1].frameIndex
  {
    assert sorted[|sorted| - 1] in sorted;
  }

  lemma {:induction false} LabelsFit(picked: seq<Shot>, labeled: seq<Labeled>, lastIndex: nat)
    requires picked != [] && Ascending(picked) && lastIndex == picked[|picked| - 1].frameIndex && |labeled| == |picked|
    requires forall k :: 0 <= k < |picked| ==> labeled[k] == Labeled(picked[k], KeyframeKind(picked[k], lastIndex))
    ensures ShotsOf(labeled) == picked && KindsFit(labeled)
  {
    forall i | 0 <= i < |labeled|
      ensures (FinalKind(labeled[i].kind) <==> i == |labeled| - 1)
          && (InterruptKind(labeled[i].kind) <==> labeled[i].shot.interrupt)
    {
      assert i < |picked| - 1 ==> picked[i].frameIndex < picked[|picked| - 1].frameIndex;
    }
  }

  lemma {:induction false} SameIndices(a: seq<Shot>, b: seq<Shot>)
    requires forall s :: s in b <==> s in a
    ensures forall n :: HasIndex(a, n) ==> HasIndex(b, n)
  {
  }

  // ---------------------------------------------------------------------------------------------
  // Mode "all"

  /** How many of some records mode "all" hands back. */
  function KeptCount(count: nat): nat { Min(count, MAX_SCREENSHOT_ALL) }

  /** Which record the i-th of them is. */
  function KeptIndex(i: nat, count: nat): (r: nat)
    ensures i < KeptCount(count) ==> r < count
  {
    if count <= MAX_SCREENSHOT_ALL then i else EvenIndex(i, count, MAX_SCREENSHOT_ALL)
  }

  function AllKept(records: seq<Shot>): (kept: seq<Shot>)
    ensures |kept| == KeptCount(|records|)
    ensures forall i :: 0 <= i < |kept| ==> kept[i] == records[KeptIndex(i, |records|)]
  {
    seq(KeptCount(|records|), i requires 0 <= i < KeptCount(|records|) => records[KeptIndex(i, |records|)])
  }

  lemma {:induction false} KeptIndexMono(i: nat, j: nat, count: nat)
    requires i < j < KeptCount(count)
    ensures KeptIndex(i, count) < KeptIndex(j, count)
  {
    if count > MAX_SCREENSHOT_ALL {
      EvenIndexMono(i, j, count, MAX_SCREENSHOT_ALL);
    }
  }

  /** The last record is kept, and last. */
  lemma {:induction false} KeptLast(i: nat, count: nat)
    requires i < KeptCount(count)
    ensures KeptIndex(i, count) == count - 1 <==> i == KeptCount(count) - 1
  {
    if count > MAX_SCREENSHOT_ALL {
      EvenIndexSpread(0, count, MAX_SCREENSHOT_ALL);
    }
    if i < KeptCount(count) - 1 {
      KeptIndexMono(i, KeptCount(count) - 1, count);
    }
  }

  predicate IsKept(k: nat, count: nat) { exists i :: 0 <= i < KeptCount(count) && KeptIndex(i, count) == k }

  /** The second to last record is kept if and only if there are at most forty-four. */
  lemma {:induction false} SecondToLastIsKept(count: nat)
    requires count >= 2
    ensures IsKept(count - 2, count) <==> count <= 44
  {
    if count > MAX_SCREENSHOT_ALL {
      SecondToLastKept(count);
      if count <= 44 {
        var i :| 0 <= i < 30 && EvenIndex(i, count, 30) == count - 2;
        assert KeptIndex(i, count) == count - 2;
      } else {
        assert forall i :: 0 <= i < 30 ==> KeptIndex(i, count) == EvenIndex(i, count, 30);
      }
    } else {
      assert KeptIndex(count - 2, count) == count - 2;
    }
  }

  /** What the label of a shot in mode "all" says. */
  predicate AllLabelled(l: Labeled, lastIndex: nat) {
    && (InterruptKind(l.kind) <==> l.shot.interrupt)
    && (FinalKind(l.kind) <==> l.shot.final || (!l.shot.interrupt && l.shot.frameIndex == lastIndex))
    && (l.kind == StepKind <==> !InterruptKind(l.kind) && !FinalKind(l.kind))
  }

  /** With one final record, the last, only the last shot is labelled final, if and only if no other shot
      kept stands at the same frame without being the interrupt. */
  lemma {:induction false} AllKindsFit(labeled: seq<Labeled>, lastIndex: nat)
    requires labeled != [] && labeled[|labeled| - 1].shot.frameIndex == lastIndex
    requires forall i :: 0 <= i < |labeled| ==> AllLabelled(labeled[i], lastIndex)
    requires forall i :: 0 <= i < |labeled| ==> (labeled[i].shot.final <==> i == |labeled| - 1)
    ensures KindsFit(labeled) <==>
            forall i :: 0 <= i < |labeled| - 1 ==> labeled[i].shot.interrupt || labeled[i].shot.frameIndex != lastIndex
  {
    forall i | 0 <= i < |labeled| - 1
      ensures FinalKind(labeled[i].kind) <==> !labeled[i].shot.interrupt && labeled[i].shot.frameIndex == lastIndex
    {
      assert AllLabelled(labeled[i], lastIndex);
    }
  }

  /** Which frames must be composed in a mode, as a value. */
  function WantsFor(mode: ShotMode): (nat, nat) -> bool {
    (f: nat, planned: nat) => WantRender(mode, f, planned)
  }

  class ScreenshotPlan {
    const mode: ShotMode
    const wants: (nat, nat) -> bool
    var records: seq<Shot>
    var finalFrame: Option<Frame>
    var interruptFrameIndex: Option<nat>

    constructor (mode: ShotMode)
      ensures this.mode == mode && records == []
      ensures wants == WantsFor(mode)
      ensures finalFrame == None && interruptFrameIndex == None
    {
      this.mode := mode;
      wants := WantsFor(mode);
      records := [];
      finalFrame := None;
      interruptFrameIndex := None;
    }

    method Record(frameIndex: nat, frame: Frame, interrupt: bool, final: bool, stepIndex: Option<nat>)
      modifies this
      ensures records == old(records) + [Shot(frameIndex, frame, interrupt, final, stepIndex)]
      ensures finalFrame == Some(frame)
      ensures interruptFrameIndex == if interrupt then Some(frameIndex) else old(interruptFrameIndex)
    {
      records := records + [Shot(frameIndex, frame, interrupt, final, stepIndex)];
      finalFrame := Some(frame);
      if interrupt {
        interruptFrameIndex := Some(frameIndex);
      }
    }

    method PickAll(targets: seq<nat>) returns (picked: seq<Shot>, used: set<nat>)
      ensures picked == GreedyPick(records, targets)
      ensures used == Indices(picked)
    {
      ghost var picks := GreedyPick(records, targets);
      var remaining, left := records, targets;
      picked, used := [], {};
      while left != [] && remaining != []
        invariant Picking(picks, picked, remaining, left)
        invariant used == Indices(picked)
        invariant forall s :: s in remaining ==> s.frameIndex !in used
        decreases |left|
      {
        var shot := Closest(remaining, left[0]);
        PickOne(picks, picked, remaining, left, shot);
        IndicesSnoc(picked, shot);
        // The code looks again when the index is already used; the remaining shots never are.
        assert shot.frameIndex !in used;
        picked := picked + [shot];
        used := used + {shot.frameIndex};
        remaining := Without(remaining, shot.frameIndex);
        left := left[1..];
      }
      PickEnd(picks, picked, remaining, left);
    }

    method Pick(targets: seq<nat>) returns (picked: seq<Shot>)
      ensures picked == PicksAround(records, targets)
    {
      var used;
      picked, used := PickAll(targets);
      var interrupt := InterruptShotOf(records);
      assert forall n :: n in used <==> HasIndex(picked, n);
      if interrupt.Some? && interrupt.value.frameIndex !in used {
        picked := picked + [interrupt.value];
      }
    }

    /** The picks in order of frame, the highest index recorded last. */
    method SortedPicks() returns (picked: seq<Shot>)
      requires records != []
      ensures 1 <= |picked| <= 5 && |picked| == |KeyframeShots(records)| && Ascending(picked)
      ensures forall s :: s in picked <==> s in KeyframeShots(records)
      ensures MaxIndex(picked) == picked[|picked| - 1].frameIndex == MaxIndex(records)
    {
      var targets := Checkpoints(Max(1, MaxIndex(records)));
      var kept := Pick(targets);
      PicksAroundCover(records, targets);
      picked := SortShots(kept);
      // The code trims past five; four targets and one interrupt never exceed it.
      assert |picked| <= 5;
      SortedTop(kept, picked);
    }

    /** At most five shots in strictly increasing order: the greedy picks and the interrupt, ending
        with the highest index recorded, which alone is labelled final. */
    method SelectKeyframes() returns (labeled: seq<Labeled>)
      requires records != []
      ensures 1 <= |labeled| <= 5 && |labeled| == |KeyframeShots(records)| && Ascending(ShotsOf(labeled))
      ensures forall s :: s in ShotsOf(labeled) <==> s in KeyframeShots(records)
      ensures labeled[|labeled| - 1].shot.frameIndex == MaxIndex(records)
      ensures InterruptShotOf(records).Some? ==> HasIndex(ShotsOf(labeled), InterruptShotOf(records).value.frameIndex)
      ensures KindsFit(labeled)
    {
      var picked := SortedPicks();
      labeled := Label(picked);
      assert ShotsOf(labeled) == picked;
      PicksAroundCover(records, Checkpoints(Max(1, MaxIndex(records))));
      SameIndices(KeyframeShots(records), picked);
    }

    static method Label(picked: seq<Shot>) returns (labeled: seq<Labeled>)
      requires picked != [] && Ascending(picked)
      requires MaxIndex(picked) == picked[|picked| - 1].frameIndex
      ensures ShotsOf(labeled) == picked && KindsFit(labeled)
      ensures forall k :: 0 <= k < |labeled| ==> labeled[k].kind == KeyframeKind(picked[k], MaxIndex(picked))
    {
      var lastIndex := MaxIndex(picked);
      labeled := [];
      for i := 0 to |picked|
        invariant |labeled| == i
        invariant forall k :: 0 <= k < i ==> labeled[k] == Labeled(picked[k], KeyframeKind(picked[k], lastIndex))
      {
        labeled := labeled + [Labeled(picked[i], KeyframeKind(picked[i], lastIndex))];
      }
      LabelsFit(picked, labeled, lastIndex);
    }

    /** Every record in order, or thirty of them evenly spread with both ends kept. Interrupts are labelled
        as such; final are the final records, and whatever else stands at the frame of the last one. */
    method SelectAll() returns (labeled: seq<Labeled>, subsampled: bool)
      requires records != []
      ensures subsampled <==> |records| > MAX_SCREENSHOT_ALL
      ensures ShotsOf(labeled) == AllKept(records)
      ensures labeled[0].shot == records[0] && labeled[|labeled| - 1].shot == records[|records| - 1]
      ensures forall i :: 0 <= i < |labeled| ==> AllLabelled(labeled[i], records[|records| - 1].frameIndex)
    {
      var chosen := EvenIndices(|records|, MAX_SCREENSHOT_ALL);
      subsampled := |records| > MAX_SCREENSHOT_ALL;
      if !subsampled {
        chosen := seq(|records|, i => i);
      }
      var lastIndex := records[chosen[|chosen| - 1]].frameIndex;
      labeled := [];
      for i := 0 to |chosen|
        invariant |labeled| == i
        invariant forall k :: 0 <= k < i ==> labeled[k].shot == records[chosen[k]]
        invariant forall k :: 0 <= k < i ==> AllLabelled(labeled[k], lastIndex)
      {
        var shot := records[chosen[i]];
        var kind :=
          if shot.interrupt && shot.final then InterruptAndFinalShot
          else if shot.interrupt then InterruptShot
          else if shot.final || shot.frameIndex == lastIndex then FinalShot
          else StepKind;
        labeled := labeled + [Labeled(shot, kind)];
      }
      if subsampled {
        EvenIndexSpread(0, |records|, MAX_SCREENSHOT_ALL);
      }
    }
  }
}
