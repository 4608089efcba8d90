/** Flattening a hold, a mash or a script into phases of one chord each, cut at the frame budget. */
module Phases {
  import opened PlayTypes

  datatype Phase = Phase(buttons: seq<Button>, frames: nat, stepIndex: nat, report: bool)

  function ChordOf(buttons: seq<Button>): Chord { set b | b in buttons }

  function Frames(phases: seq<Phase>): nat {
    if phases == [] then 0 else Frames(phases[..|phases| - 1]) + phases[|phases| - 1].frames
  }

  /** What a single frame of a schedule does. */
  datatype Slot = Slot(buttons: seq<Button>, stepIndex: nat, report: bool, holdFrames: nat, first: bool, last: bool)
  {
    function Chord(): Chord { ChordOf(buttons) }
  }

  function SlotOf(p: Phase, j: nat): Slot {
    Slot(p.buttons, p.stepIndex, p.report, p.frames, j == 0, j + 1 == p.frames)
  }

  /** The schedule frame by frame. */
  function Slots(phases: seq<Phase>): (s: seq<Slot>)
    ensures |s| == Frames(phases)
  {
    if phases == [] then []
    else
      var p := phases[|phases| - 1];
      Slots(phases[..|phases| - 1]) + seq(p.frames, j requires 0 <= j => SlotOf(p, j))
  }

  function Held(slots: seq<Slot>): (s: seq<Chord>)
    ensures |s| == |slots|
    ensures forall i :: 0 <= i < |slots| ==> s[i] == slots[i].Chord()
  {
    seq(|slots|, i requires 0 <= i < |slots| => slots[i].Chord())
  }

  function Repeat<T>(x: T, n: nat): (s: seq<T>)
    ensures |s| == n
    ensures forall i :: 0 <= i < n ==> s[i] == x
  {
    seq(n, i => x)
  }

  /** The chord held in each frame. */
  function HeldBy(phases: seq<Phase>): (s: seq<Chord>)
    ensures |s| == Frames(phases)
  {
    Held(Slots(phases))
  }

  lemma {:induction false} HeldSnoc(phases: seq<Phase>, p: Phase)
    ensures Frames(phases + [p]) == Frames(phases) + p.frames
    ensures Slots(phases + [p]) == Slots(phases) + seq(p.frames, j requires 0 <= j => SlotOf(p, j))
    ensures HeldBy(phases + [p]) == HeldBy(phases) + Repeat(ChordOf(p.buttons), p.frames)
  {
    var all := phases + [p];
    assert all[..|all| - 1] == phases && all[|all| - 1] == p;
  }

  lemma {:induction false} HeldAppend(a: seq<Phase>, b: seq<Phase>)
    ensures HeldBy(a + b) == HeldBy(a) + HeldBy(b)
    ensures Frames(a + b) == Frames(a) + Frames(b)
  {
    FramesAppend(a, b);
  }

  lemma {:induction false} FramesAppend(a: seq<Phase>, b: seq<Phase>)
    ensures Frames(a + b) == Frames(a) + Frames(b)
    ensures Slots(a + b) == Slots(a) + Slots(b)
  {
    if b == [] {
      assert a + b == a;
    } else {
      var n := |b| - 1;
      assert (a + b)[..|a + b| - 1] == a + b[..n];
      FramesAppend(a, b[..n]);
    }
  }

  /** Frame j of phase i, found in the flat schedule. */
  lemma {:induction false} SlotAt(phases: seq<Phase>, i: nat, j: nat)
    requires i < |phases| && j < phases[i].frames
    ensures Frames(phases[..i]) + phases[i].frames == Frames(phases[..i + 1]) <= Frames(phases)
    ensures Slots(phases)[Frames(phases[..i]) + j] == SlotOf(phases[i], j)
  {
    var upTo, rest := phases[..i] + [phases[i]], phases[i + 1..];
    SlotOfLast(phases[..i], phases[i], j);
    assert upTo == phases[..i + 1] && phases == upTo + rest;
    FramesAppend(upTo, rest);
    HeldSnoc(phases[..i], phases[i]);
  }

  lemma {:induction false} SlotOfLast(before: seq<Phase>, p: Phase, j: nat)
    requires j < p.frames
    ensures Frames(before) + j < Frames(before + [p]) && Slots(before + [p])[Frames(before) + j] == SlotOf(p, j)
  {
    HeldSnoc(before, p);
    var own := seq(p.frames, k requires 0 <= k => SlotOf(p, k));
    assert own[j] == SlotOf(p, j) && |Slots(before)| == Frames(before);
  }

  // ---------------------------------------------------------------------------------------------
  // The three macros

  function StepPair(step: InputStep, index: nat): seq<Phase> {
    (if step.holdFrames > 0 then [Phase(step.buttons, step.holdFrames, index, true)] else [])
    + (if step.gapFrames > 0 then [Phase([], step.gapFrames, index, false)] else [])
  }

  function StepPhases(steps: seq<InputStep>): seq<Phase> {
    if steps == [] then []
    else StepPhases(steps[..|steps| - 1]) + StepPair(steps[|steps| - 1], |steps| - 1)
  }

  function MashFrom(button: Button, press: nat, release: nat, remaining: nat, index: nat): seq<Phase>
    requires press + release > 0
    decreases remaining
  {
    if remaining == 0 then []
    else
      var held := Min(press, remaining);
      if remaining == held then [Phase([button], held, index, true)]
      else
        var up := Min(release, remaining - held);
        [Phase([button], held, index, true), Phase([], up, index + 1, true)]
        + MashFrom(button, press, release, remaining - held - up, index + 2)
  }

  function RawPhases(play: PlayInput, budget: nat): seq<Phase>
    requires play.macro == Mash ==> play.mashPressFrames + play.mashReleaseFrames > 0
  {
    match play.macro
    case Mash => MashFrom(play.mashButton, play.mashPressFrames, play.mashReleaseFrames, budget, 0)
    case Hold => if budget > 0 then [Phase(play.buttons, budget, 0, true)] else []
    case _ => StepPhases(play.steps)
  }

  function Truncate(raw: seq<Phase>, budget: nat): (out: seq<Phase>)
    ensures Frames(out) <= budget
    ensures forall p :: p in out ==> p.frames > 0
  {
    if raw == [] then []
    else
      var out := Truncate(raw[..|raw| - 1], budget);
      var p := raw[|raw| - 1];
      var frames := Min(p.frames, budget - Frames(out));
      if frames <= 0 then out
      else
        assert (out + [p.(frames := frames)])[..|out|] == out;
        out + [p.(frames := frames)]
  }

  function PhasesOf(play: PlayInput, budget: nat): seq<Phase>
    requires play.macro == Mash ==> play.mashPressFrames + play.mashReleaseFrames > 0
  {
    Truncate(RawPhases(play, budget), budget)
  }

  lemma {:induction false} TruncateFull(raw: seq<Phase>, i: nat, budget: nat)
    requires i <= |raw| && Frames(Truncate(raw[..i], budget)) >= budget
    ensures Truncate(raw, budget) == Truncate(raw[..i], budget)
    decreases |raw|
  {
    if i == |raw| {
      assert raw[..i] == raw;
    } else {
      assert raw[..|raw| - 1][..i] == raw[..i];
      TruncateFull(raw[..|raw| - 1], i, budget);
    }
  }

  /** A schedule within the budget is not cut. */
  lemma {:induction false} TruncateFits(raw: seq<Phase>, budget: nat)
    requires Frames(raw) <= budget && forall p :: p in raw ==> p.frames > 0
    ensures Truncate(raw, budget) == raw
  {
    if raw != [] {
      var rest, p := raw[..|raw| - 1], raw[|raw| - 1];
      assert raw == rest + [p] && p in raw && forall q :: q in rest ==> q in raw;
      TruncateFits(rest, budget);
      assert p.(frames := p.frames) == p;
    }
  }

  method MashPhases(play: PlayInput, budget: nat) returns (phases: seq<Phase>)
    requires play.mashPressFrames + play.mashReleaseFrames > 0
    ensures phases == MashFrom(play.mashButton, play.mashPressFrames, play.mashReleaseFrames, budget, 0)
  {
    var press, release, button := play.mashPressFrames, play.mashReleaseFrames, play.mashButton;
    phases := [];
    var remaining, index := budget, 0;
    while remaining > 0
      invariant 0 <= remaining <= budget && index >= 0
      invariant MashFrom(button, press, release, budget, 0) ==
                phases + MashFrom(button, press, release, remaining, index)
    {
      var held := Min(press, remaining);
      phases := phases + [Phase([button], held, index, true)];
      index := index + 1;
      remaining := remaining - held;
      if remaining <= 0 {
        break;
      }
      var up := Min(release, remaining);
      phases := phases + [Phase([], up, index, true)];
      index := index + 1;
      remaining := remaining - up;
    }
  }

  method PhasesFor(play: PlayInput, budget: nat) returns (out: seq<Phase>)
    requires play.macro == Mash ==> play.mashPressFrames + play.mashReleaseFrames > 0
    ensures out == PhasesOf(play, budget)
  {
    var raw: seq<Phase> := [];
    if play.macro == Mash {
      raw := MashPhases(play, budget);
    } else if play.macro == Hold {
      raw := if budget > 0 then [Phase(play.buttons, budget, 0, true)] else [];
    } else {
      for index := 0 to |play.steps|
        invariant raw == StepPhases(play.steps[..index])
      {
        var step := play.steps[index];
        assert play.steps[..index + 1][..index] == play.steps[..index];
        if step.holdFrames > 0 {
          raw := raw + [Phase(step.buttons, step.holdFrames, index, true)];
        }
        if step.gapFrames > 0 {
          raw := raw + [Phase([], step.gapFrames, index, false)];
        }
      }
      assert play.steps[..|play.steps|] == play.steps;
    }
    out := Cut(raw, budget);
  }

  method Cut(raw: seq<Phase>, budget: nat) returns (out: seq<Phase>)
    ensures out == Truncate(raw, budget)
  {
    out := [];
    var used := 0;
    for i := 0 to |raw|
      invariant out == Truncate(raw[..i], budget) && used == Frames(out)
    {
      if used >= budget {
        TruncateFull(raw, i, budget);
        return;
      }
      var phase := raw[i];
      assert raw[..i + 1][..i] == raw[..i];
      var frames := phase.frames;
      if used + frames > budget {
        frames := budget - used;
      }
      if frames <= 0 {
        continue;
      }
      assert (out + [phase.(frames := frames)])[..|out|] == out;
      out := out + [Phase(phase.buttons, frames, phase.stepIndex, phase.report)];
      used := used + frames;
    }
    assert raw[..|raw|] == raw;
  }

  // ---------------------------------------------------------------------------------------------
  // What the flat schedule holds

  lemma {:induction false} TruncateHeld(raw: seq<Phase>, budget: nat)
    ensures Frames(Truncate(raw, budget)) == Min(Frames(raw), budget)
    ensures HeldBy(Truncate(raw, budget)) == HeldBy(raw)[..Min(Frames(raw), budget)]
  {
    if raw != [] {
      var rest, p := raw[..|raw| - 1], raw[|raw| - 1];
      TruncateHeld(rest, budget);
      assert raw == rest + [p];
      HeldSnoc(rest, p);
      var out := Truncate(rest, budget);
      HeldSnoc(out, p.(frames := Max(0, Min(p.frames, budget - Frames(out)))));
      TakeRepeat(HeldBy(rest), ChordOf(p.buttons), p.frames, budget);
    }
  }

  lemma {:induction false} TakeRepeat<T>(s: seq<T>, x: T, n: nat, k: nat)
    ensures k <= |s| ==> (s + Repeat(x, n))[..k] == s[..k]
    ensures |s| <= k <= |s| + n ==> (s + Repeat(x, n))[..k] == s + Repeat(x, k - |s|)
    ensures |s| + n <= k ==> (s + Repeat(x, n))[..|s| + n] == s + Repeat(x, n)
    ensures s[..|s|] == s
    ensures s + Repeat(x, 0) == s
  {
  }

  lemma {:induction false} PairOfPhases(a: Phase, b: Phase)
    ensures HeldBy([a]) == Repeat(ChordOf(a.buttons), a.frames)
    ensures HeldBy([a, b]) == Repeat(ChordOf(a.buttons), a.frames) + Repeat(ChordOf(b.buttons), b.frames)
  {
    HeldSnoc([], a);
    HeldSnoc([a], b);
    assert [] + [a] == [a] && [a] + [b] == [a, b];
  }

  lemma {:induction false} MashUnfold(button: Button, press: nat, release: nat, remaining: nat, index: nat)
    requires press + release > 0 && remaining > 0
    ensures var held := Min(press, remaining);
            var up := Min(release, remaining - held);
            HeldBy(MashFrom(button, press, release, remaining, index)) ==
            Repeat({button}, held) + Repeat({}, up)
            + HeldBy(MashFrom(button, press, release, remaining - held - up, index + 2))
  {
    var held := Min(press, remaining);
    var down, up := Phase([button], held, index, true), Phase([], Min(release, remaining - held), index + 1, true);
    PairOfPhases(down, up);
    assert ChordOf([button]) == {button} && ChordOf([]) == {};
    HeldAppend([down, up], MashFrom(button, press, release, remaining - held - up.frames, index + 2));
  }

  /** The cycles of a mash, frame by frame. */
  function Cycles(button: Button, press: nat, release: nat, remaining: nat): seq<Chord>
    requires press + release > 0
    decreases remaining
  {
    if remaining == 0 then []
    else
      var held := Min(press, remaining);
      var up := Min(release, remaining - held);
      Repeat({button}, held) + Repeat({}, up) + Cycles(button, press, release, remaining - held - up)
  }

  lemma {:induction false} MashIsCycles(button: Button, press: nat, release: nat, remaining: nat, index: nat)
    requires press + release > 0
    ensures HeldBy(MashFrom(button, press, release, remaining, index)) == Cycles(button, press, release, remaining)
    decreases remaining
  {
    if remaining > 0 {
      var held := Min(press, remaining);
      MashUnfold(button, press, release, remaining, index);
      MashIsCycles(button, press, release, remaining - held - Min(release, remaining - held), index + 2);
    }
  }

  lemma {:induction false} CyclesAt(button: Button, press: nat, release: nat, remaining: nat, f: nat)
    requires press + release > 0
    ensures |Cycles(button, press, release, remaining)| == remaining
    ensures f < remaining ==> Cycles(button, press, release, remaining)[f] ==
                              if Residue(f, press + release) < press then {button} else {}
    decreases remaining
  {
    if remaining > 0 {
      var held := Min(press, remaining);
      var up := Min(release, remaining - held);
      CyclesAt(button, press, release, remaining - held - up, if f < press + release then 0 else f - press - release);
    }
  }

  /** Mash from any even phase: button down for the first `press` frames of every cycle. */
  lemma {:induction false} MashHeld(button: Button, press: nat, release: nat, remaining: nat, index: nat, f: nat)
    requires press + release > 0
    ensures |HeldBy(MashFrom(button, press, release, remaining, index))| == remaining
    ensures f < remaining ==> HeldBy(MashFrom(button, press, release, remaining, index))[f] ==
                              if Residue(f, press + release) < press then {button} else {}
  {
    MashIsCycles(button, press, release, remaining, index);
    CyclesAt(button, press, release, remaining, f);
  }

  /** In a mash the button is down at frame f exactly when f falls in the press part of its cycle. */
  function MashChord(button: Button, press: nat, release: nat, f: nat): Chord
    requires press + release > 0
  {
    if f % (press + release) < press then {button} else {}
  }

  /** f mod c by repeated subtraction. */
  function Residue(f: nat, c: nat): nat
    requires c > 0
  {
    if f < c then f else Residue(f - c, c)
  }

  lemma {:induction false} ResidueIsMod(f: nat, c: nat)
    requires c > 0
    ensures Residue(f, c) == f % c
  {
    if f < c {
      SmallMod(f, c);
    } else {
      ResidueIsMod(f - c, c);
      CycleMod(f, c);
    }
  }

  lemma {:induction false} SmallMod(f: nat, c: nat)
    requires f < c
    ensures f % c == f
  {
  }

  lemma {:induction false} CycleMod(f: nat, c: nat)
    requires 0 < c <= f
    ensures (f - c) % c == f % c
  {
    var q, m := (f - c) / c, (f - c) % c;
    assert f == c * (q + 1) + m;
    ModUnique(f, c, q + 1, m);
  }

  lemma {:induction false} ModUnique(f: nat, c: nat, q: int, m: nat)
    requires m < c && f == c * q + m
    ensures f % c == m
  {
    assert c * (f / c - q) == m - f % c;
    Multiple(c, f / c - q);
  }

  lemma {:induction false} Multiple(c: int, d: int)
    requires c > 0 && -c < c * d < c
    ensures d == 0
  {
    assert d >= 1 ==> c * d >= c;
    assert d <= -1 ==> c * d <= -c;
  }

  /** The chord an unlimited run of the request would hold at frame f; None past a script's end. */
  function Unbounded(play: PlayInput, f: nat): Option<Chord>
    requires play.macro == Mash ==> play.mashPressFrames + play.mashReleaseFrames > 0
  {
    match play.macro
    case Mash =>
      Some(MashChord(play.mashButton, play.mashPressFrames, play.mashReleaseFrames, f))
    case Hold => Some(ChordOf(play.buttons))
    case _ => ScriptChord(play.steps, f)
  }

  /** Frame f of a script: each step holds its chord, then releases for its gap. */
  function ScriptChord(steps: seq<InputStep>, f: nat): Option<Chord> {
    if steps == [] then None
    else if f < steps[0].holdFrames then Some(ChordOf(steps[0].buttons))
    else if f < steps[0].holdFrames + steps[0].gapFrames then Some({})
    else ScriptChord(steps[1..], f - steps[0].holdFrames - steps[0].gapFrames)
  }

  function ScriptFrames(steps: seq<InputStep>): nat {
    if steps == [] then 0 else steps[0].holdFrames + steps[0].gapFrames + ScriptFrames(steps[1..])
  }

  /** StepPhases with step numbers starting anywhere, split from the front. */
  function StepPhasesFrom(steps: seq<InputStep>, index: nat): seq<Phase> {
    if steps == [] then [] else StepPair(steps[0], index) + StepPhasesFrom(steps[1..], index + 1)
  }

  lemma {:induction false} StepPhasesFromFront(steps: seq<InputStep>, n: nat)
    requires n <= |steps|
    ensures StepPhases(steps) == StepPhases(steps[..n]) + StepPhasesFrom(steps[n..], n)
    decreases |steps| - n
  {
    if n == |steps| {
      assert steps[..n] == steps;
    } else {
      StepPhasesFromFront(steps, n + 1);
      assert steps[..n + 1][..n] == steps[..n] && steps[n..][1..] == steps[n + 1..];
      var before, pair, after := StepPhases(steps[..n]), StepPair(steps[n], n), StepPhasesFrom(steps[n + 1..], n + 1);
      assert (before + pair) + after == before + (pair + after);
    }
  }

  lemma {:induction false} PairHeld(step: InputStep, index: nat)
    ensures HeldBy(StepPair(step, index)) ==
            Repeat(ChordOf(step.buttons), step.holdFrames) + Repeat({}, step.gapFrames)
  {
    var down, gap := Phase(step.buttons, step.holdFrames, index, true), Phase([], step.gapFrames, index, false);
    PairOfPhases(down, gap);
    PairOfPhases(gap, gap);
    assert ChordOf([]) == {};
  }

  lemma {:induction false} ScriptHeld(steps: seq<InputStep>, index: nat)
    ensures Frames(StepPhasesFrom(steps, index)) == ScriptFrames(steps)
    ensures forall f :: 0 <= f < ScriptFrames(steps) ==>
              Some(HeldBy(StepPhasesFrom(steps, index))[f]) == ScriptChord(steps, f)
  {
    if steps != [] {
      ScriptHeld(steps[1..], index + 1);
      PairHeld(steps[0], index);
      HeldAppend(StepPair(steps[0], index), StepPhasesFrom(steps[1..], index + 1));
    }
  }

  /** How many frames an unlimited run lasts, as far as the budget can see. */
  function Length(play: PlayInput, budget: nat): nat {
    if play.macro in {Hold, Mash} then budget else Min(ScriptFrames(play.steps), budget)
  }

  lemma {:induction false} MashSchedule(play: PlayInput, budget: nat, f: nat)
    requires play.macro == Mash && play.mashPressFrames + play.mashReleaseFrames > 0
    ensures |HeldBy(RawPhases(play, budget))| == budget
    ensures f < budget ==> Some(HeldBy(RawPhases(play, budget))[f]) == Unbounded(play, f)
  {
    MashHeld(play.mashButton, play.mashPressFrames, play.mashReleaseFrames, budget, 0, f);
    ResidueIsMod(f, play.mashPressFrames + play.mashReleaseFrames);
  }

  lemma {:induction false} ScriptSchedule(play: PlayInput, budget: nat, f: nat)
    requires play.macro !in {Hold, Mash}
    ensures |HeldBy(RawPhases(play, budget))| == ScriptFrames(play.steps)
    ensures f < ScriptFrames(play.steps) ==> Some(HeldBy(RawPhases(play, budget))[f]) == Unbounded(play, f)
  {
    StepPhasesFromFront(play.steps, 0);
    assert play.steps[0..] == play.steps && play.steps[..0] == [];
    assert RawPhases(play, budget) == StepPhasesFrom(play.steps, 0);
    ScriptHeld(play.steps, 0);
  }

  /** Flattening keeps exactly the first `budget` frames of the unlimited schedule. */
  lemma {:induction false} FlattenedSchedule(play: PlayInput, budget: nat, f: nat)
    requires play.macro == Mash ==> play.mashPressFrames + play.mashReleaseFrames > 0
    ensures Frames(PhasesOf(play, budget)) == Length(play, budget)
    ensures f < Length(play, budget) ==> Some(HeldBy(PhasesOf(play, budget))[f]) == Unbounded(play, f)
  {
    TruncateHeld(RawPhases(play, budget), budget);
    match play.macro {
      case Mash => MashSchedule(play, budget, f);
      case Hold => HeldSnoc([], Phase(play.buttons, budget, 0, true));
      case _ => ScriptSchedule(play, budget, f);
    }
  }
}
