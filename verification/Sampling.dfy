/** Frame sampling: half-to-even rounding, even sub-sampling and keyframe selection. */
module Sampling {
  import opened PlayTypes

  /** Quotient and remainder, doubled. */
  lemma {:induction false} DivideBack(a: nat, b: nat, q: nat, m: nat)
    requires b > 0 && q == a / b && m == a % b
    ensures m < b && 2 * b * q == 2 * a - 2 * m && 2 * b * (q + 1) == 2 * a - 2 * m + 2 * b
  {
    assert a == b * q + m;
    assert 2 * b * q == 2 * (b * q);
    assert 2 * b * (q + 1) == 2 * b * q + 2 * b;
  }

  /** The integer nearest to a/b, ties to the even neighbour. */
  function RoundDiv(a: nat, b: nat): (r: nat)
    requires b > 0
    ensures 2 * a - b <= 2 * b * r <= 2 * a + b
    ensures 2 * b * r == 2 * a + b || 2 * b * r == 2 * a - b ==> r % 2 == 0
  {
    var q, m := a / b, a % b;
    DivideBack(a, b, q, m);
    if 2 * m < b then q
    else if 2 * m > b then q + 1
    else if q % 2 == 0 then q else q + 1
  }

  lemma {:induction false} MulMono(k: nat, x: int, y: int)
    ensures x <= y ==> k * x <= k * y
  {
    assert k * y - k * x == k * (y - x);
  }

  /** The two clauses of RoundDiv leave one candidate: they are the definition of the rounding. */
  lemma {:induction false} RoundDivUnique(a: nat, b: nat, r: nat)
    requires b > 0
    requires 2 * a - b <= 2 * b * r <= 2 * a + b
    requires 2 * b * r == 2 * a + b || 2 * b * r == 2 * a - b ==> r % 2 == 0
    ensures r == RoundDiv(a, b)
  {
    Within(a, b, r, RoundDiv(a, b));
    Within(a, b, RoundDiv(a, b), r);
  }

  lemma {:induction false} Within(a: nat, b: nat, r: nat, s: nat)
    requires b > 0
    requires 2 * a - b <= 2 * b * r && 2 * b * s <= 2 * a + b
    ensures s <= r + 1
    ensures s == r + 1 ==> 2 * b * r == 2 * a - b && 2 * b * s == 2 * a + b
  {
    MulMono(2 * b, r + 2, s);
    assert 2 * b * (r + 2) == 2 * b * r + 4 * b;
    assert 2 * b * (r + 1) == 2 * b * r + 2 * b;
  }

  /** Two numerators further apart than the divisor never round to the same integer. */
  lemma {:induction false} RoundDivStrict(a: nat, step: nat, b: nat)
    requires b > 0 && step > b
    ensures RoundDiv(a, b) < RoundDiv(a + step, b)
  {
    MulMono(2 * b, RoundDiv(a + step, b), RoundDiv(a, b));
  }

  lemma {:induction false} RoundDivExact(q: nat, b: nat)
    requires b > 0
    ensures RoundDiv(q * b, b) == q
  {
    RoundDivUnique(q * b, b, q);
  }

  predicate StrictlyIncreasing(s: seq<int>) {
    forall i, j :: 0 <= i < j < |s| ==> s[i] < s[j]
  }

  /** Where the i-th of `cap` samples falls among `count` records. */
  function EvenIndex(i: nat, count: nat, cap: nat): (r: nat)
    requires 1 < cap < count
    ensures i < cap ==> r < count
  {
    EvenIndexInside(i, count, cap);
    RoundDiv(i * (count - 1), cap - 1)
  }

  lemma {:induction false} EvenIndexInside(i: nat, count: nat, cap: nat)
    requires 1 < cap < count
    ensures i < cap ==> RoundDiv(i * (count - 1), cap - 1) < count
  {
    if i < cap {
      var r := RoundDiv(i * (count - 1), cap - 1);
      MulMono(count - 1, i, cap - 1);
      assert (count - 1) * i == i * (count - 1) && (count - 1) * (cap - 1) == (cap - 1) * (count - 1);
      RoundDivAtMost(i * (count - 1), count - 1, cap - 1, r);
    }
  }

  lemma {:induction false} RoundDivAtMost(a: nat, q: nat, b: nat, r: nat)
    requires b > 0 && a <= b * q && 2 * b * r <= 2 * a + b
    ensures r <= q
  {
    MulMono(2 * b, q + 1, r);
    assert 2 * b * (q + 1) == 2 * (b * q) + 2 * b;
  }

  /** Samples start at the first record, end at the last and never collide. */
  lemma {:induction false} EvenIndexSpread(i: nat, count: nat, cap: nat)
    requires 1 < cap < count && i < cap - 1
    ensures EvenIndex(i, count, cap) < EvenIndex(i + 1, count, cap)
    ensures EvenIndex(0, count, cap) == 0
    ensures EvenIndex(cap - 1, count, cap) == count - 1
  {
    assert (i + 1) * (count - 1) == i * (count - 1) + (count - 1);
    RoundDivStrict(i * (count - 1), count - 1, cap - 1);
    RoundDivExact(0, cap - 1);
    assert (cap - 1) * (count - 1) == (count - 1) * (cap - 1);
    RoundDivExact(count - 1, cap - 1);
  }

  /** Indices of at most `cap` records spread evenly over `count` records. */
  method EvenIndices(count: nat, cap: nat) returns (chosen: seq<int>)
    ensures StrictlyIncreasing(chosen)
    ensures |chosen| == if count <= cap then count else if cap <= 1 then 1 else cap
    ensures forall i :: 0 <= i < |chosen| ==> 0 <= chosen[i] < count
    ensures count > 0 && cap > 1 ==> chosen[0] == 0
    ensures count > 0 ==> chosen[|chosen| - 1] == count - 1
    ensures 1 < cap < count ==> forall i :: 0 <= i < |chosen| ==> chosen[i] == EvenIndex(i, count, cap)
  {
    if count <= cap {
      return seq(count, i => i);
    }
    if cap <= 1 {
      return [count - 1];
    }
    chosen := [];
    var seen: set<int> := {};
    var i := 0;
    while i < cap
      invariant 0 <= i <= cap && |chosen| == i
      invariant forall k :: 0 <= k < i ==> chosen[k] == EvenIndex(k, count, cap)
      invariant forall j, k :: 0 <= j < k < i ==> chosen[j] < chosen[k]
      invariant forall x :: x in seen ==> x in chosen
    {
      var index := EvenIndex(i, count, cap);
      if i > 0 {
        EvenIndexSpread(i - 1, count, cap);
      }
      // The code skips an index it has already chosen; no index repeats.
      assert index !in seen;
      seen := seen + {index};
      chosen := chosen + [index];
      i := i + 1;
    }
    EvenIndexSpread(0, count, cap);
  }

  lemma {:induction false} EvenIndexMono(i: nat, j: nat, count: nat, cap: nat)
    requires 1 < cap < count && i < j < cap
    ensures EvenIndex(i, count, cap) < EvenIndex(j, count, cap)
  {
    EvenIndexSpread(j - 1, count, cap);
    if i < j - 1 {
      EvenIndexMono(i, j - 1, count, cap);
    }
  }

  /** Of more than thirty records the second to last is among the thirty kept if and only if there are at
      most forty-four. */
  lemma {:induction false} SecondToLastKept(count: nat)
    requires count > 30
    ensures (exists i :: 0 <= i < 30 && EvenIndex(i, count, 30) == count - 2) <==> count <= 44
  {
    EvenIndexSpread(28, count, 30);
    forall i | 0 <= i < 28 ensures EvenIndex(i, count, 30) < EvenIndex(28, count, 30) {
      EvenIndexMono(i, 28, count, 30);
    }
    if count <= 44 {
      RoundDivUnique(28 * (count - 1), 29, count - 2);
      assert EvenIndex(28, count, 30) == count - 2;
    }
  }

  // ---------------------------------------------------------------------------------------------
  // Recorded frames

  datatype Shot = Shot(frameIndex: nat, frame: Frame, interrupt: bool, final: bool, stepIndex: Option<nat>)

  datatype Kind = KeyframeShot | StepKind | InterruptShot | FinalShot | InterruptAndFinalShot

  /** A quarter, half, three quarters and all of a span, each rounded and at least 1. */
  function Checkpoints(span: nat): seq<nat> {
    [Max(1, RoundDiv(span, 4)), Max(1, RoundDiv(2 * span, 4)), Max(1, RoundDiv(3 * span, 4)), Max(1, span)]
  }

  /** Must the LCD be composed at this frame because a keyframe is due? */
  predicate WantRender(mode: ShotMode, frameIndex: nat, planned: nat) {
    mode == Keyframes && planned > 0 && frameIndex in Checkpoints(planned)
  }

  function Distance(a: nat, b: nat): nat { if a <= b then b - a else a - b }

  predicate Nearer(s: Shot, t: Shot, target: nat) {
    var ds, dt := Distance(s.frameIndex, target), Distance(t.frameIndex, target);
    ds < dt || (ds == dt && s.frameIndex < t.frameIndex)
  }

  /** The first shot no other candidate is nearer than. */
  function Closest(candidates: seq<Shot>, target: nat): (s: Shot)
    requires candidates != []
    ensures s in candidates
    ensures forall c :: c in candidates ==> !Nearer(c, s, target)
  {
    if |candidates| == 1 then candidates[0]
    else
      var last := candidates[|candidates| - 1];
      var rest := candidates[..|candidates| - 1];
      var best := Closest(rest, target);
      assert forall c :: c in candidates ==> c in rest || c == last;
      if Nearer(last, best, target) then last else best
  }

  function Without(shots: seq<Shot>, index: nat): (r: seq<Shot>)
    ensures forall s :: s in r <==> s in shots && s.frameIndex != index
  {
    if shots == [] then []
    else
      var head := shots[0];
      assert forall s :: s in shots <==> s == head || s in shots[1..];
      (if head.frameIndex == index then [] else [head]) + Without(shots[1..], index)
  }

  /** One shot per target, each the closest of those whose index is still unused. */
  function GreedyPick(remaining: seq<Shot>, targets: seq<nat>): seq<Shot>
    decreases |targets|
  {
    if remaining == [] || targets == [] then []
    else
      var s := Closest(remaining, targets[0]);
      [s] + GreedyPick(Without(remaining, s.frameIndex), targets[1..])
  }

  predicate DistinctIndices(shots: seq<Shot>) {
    forall i, j :: 0 <= i < j < |shots| ==> shots[i].frameIndex != shots[j].frameIndex
  }

  lemma {:induction false} GreedyPickSound(remaining: seq<Shot>, targets: seq<nat>)
    ensures var p := GreedyPick(remaining, targets);
            && |p| <= |targets|
            && (forall s :: s in p ==> s in remaining)
            && DistinctIndices(p)
            && (remaining != [] && targets != [] ==> p != [])
    decreases |targets|
  {
    if remaining != [] && targets != [] {
      var s := Closest(remaining, targets[0]);
      GreedyPickSound(Without(remaining, s.frameIndex), targets[1..]);
    }
  }

  /** When the last target is at or past every candidate, the highest index is always picked. */
  lemma {:induction false} GreedyPickReachesTop(remaining: seq<Shot>, targets: seq<nat>, top: Shot)
    requires top in remaining && targets != []
    requires forall s :: s in remaining ==> s.frameIndex <= top.frameIndex
    requires top.frameIndex <= targets[|targets| - 1]
    ensures exists s :: s in GreedyPick(remaining, targets) && s.frameIndex == top.frameIndex
    decreases |targets|
  {
    var s := Closest(remaining, targets[0]);
    var rest := GreedyPick(Without(remaining, s.frameIndex), targets[1..]);
    assert GreedyPick(remaining, targets) == [s] + rest;
    if s.frameIndex == top.frameIndex {
      assert s in [s] + rest;
    } else {
      assert |targets| > 1 by {
        assert !Nearer(top, s, targets[0]);
      }
      GreedyPickReachesTop(Without(remaining, s.frameIndex), targets[1..], top);
    }
  }

  // ---------------------------------------------------------------------------------------------
  // Ordering

  predicate Ascending(shots: seq<Shot>) {
    forall i, j :: 0 <= i < j < |shots| ==> shots[i].frameIndex < shots[j].frameIndex
  }

  function Insert(sorted: seq<Shot>, s: Shot): (r: seq<Shot>)
    requires Ascending(sorted)
    requires forall t :: t in sorted ==> t.frameIndex != s.frameIndex
    ensures Ascending(r) && |r| == |sorted| + 1
    ensures forall t :: t in r <==> t in sorted || t == s
  {
    if sorted == [] then [s]
    else if s.frameIndex < sorted[0].frameIndex then [s] + sorted
    else
      var tail := Insert(sorted[1..], s);
      assert forall t :: t in sorted <==> t == sorted[0] || t in sorted[1..];
      assert forall i :: 0 <= i < |tail| ==> tail[i] in tail;
      [sorted[0]] + tail
  }

  /** Sort by frame index; the indices are distinct, so stability does not arise. */
  function SortShots(shots: seq<Shot>): (r: seq<Shot>)
    requires DistinctIndices(shots)
    ensures Ascending(r) && |r| == |shots|
    ensures forall t :: t in r <==> t in shots
  {
    if shots == [] then []
    else
      var last := |shots| - 1;
      assert forall t :: t in shots <==> t == shots[last] || t in shots[..last];
      Insert(SortShots(shots[..last]), shots[last])
  }
}
