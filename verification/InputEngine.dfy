/** The tick and button scheduler: phases are played in chunks cut at phase ends, evaluations and
    keyframes, and the result is the one-frame-at-a-time reference's. */
module InputEngine {
  import opened PlayTypes
  import opened Phases
  import opened EngineReference

  const MAX_TICK_WITHOUT_RENDER := 4

  /** One tick call, with the chord held during it. */
  datatype Tick = TickCall(count: nat, render: bool, held: Chord)

  /** Rendered ticks play one frame; the others at most four. */
  predicate TickOk(t: Tick) {
    if t.render then t.count == 1 else 1 <= t.count <= MAX_TICK_WITHOUT_RENDER
  }

  function LastChord(before: Chord, ticks: seq<Tick>): Chord {
    if ticks == [] then before else ticks[|ticks| - 1].held
  }

  predicate ChangeRendered(before: Chord, ticks: seq<Tick>, i: nat)
    requires i < |ticks|
  {
    ticks[i].held != (if i == 0 then before else ticks[i - 1].held) ==> ticks[i].render
  }

  /** The first tick after every chord change is rendered. */
  predicate ChangesRendered(before: Chord, ticks: seq<Tick>) {
    forall i :: 0 <= i < |ticks| ==> ChangeRendered(before, ticks, i)
  }

  /** Ticks of one chunk appended after others: only their first can follow a chord change. */
  lemma {:induction false} ChangesAppend(before: Chord, a: seq<Tick>, b: seq<Tick>, chord: Chord)
    requires ChangesRendered(before, a) && TicksOf(b, chord)
    requires b != [] && chord != LastChord(before, a) ==> b[0].render
    ensures ChangesRendered(before, a + b)
    ensures LastChord(before, a + b) == if b == [] then LastChord(before, a) else chord
  {
    assert forall i :: 0 <= i < |b| ==> b[i] in b;
    forall i | 0 <= i < |a + b| ensures ChangeRendered(before, a + b, i) {
      if i < |a| {
        assert ChangeRendered(before, a, i);
      }
    }
  }

  /** The emulator: each frame plays the chord held, and the LCD is composed by rendered ticks. */
  class PyBoy {
    const still: nat -> bool
    var held: Chord
    var frames: seq<Chord>
    var lcdAt: nat
    var ticks: seq<Tick>

    predicate Valid() reads this { lcdAt <= |frames| }

    constructor (still: nat -> bool)
      ensures Valid() && this.still == still && held == {} && frames == [] && ticks == []
    {
      this.still := still;
      held, frames, lcdAt, ticks := {}, [], 0, [];
    }

    function Lcd(): Frame
      requires Valid()
      reads this
    {
      frames[..lcdAt]
    }

    /** False when the emulator has stopped. */
    method Tick(count: nat, render: bool) returns (running: bool)
      requires Valid()
      modifies this`frames, this`lcdAt, this`ticks
      ensures Valid()
      ensures frames == old(frames) + Repeat(held, count)
      ensures lcdAt == if render then |frames| else old(lcdAt)
      ensures ticks == old(ticks) + [TickCall(count, render, held)]
      ensures running == still(|old(ticks)|)
    {
      running := still(|ticks|);
      frames := frames + Repeat(held, count);
      ticks := ticks + [TickCall(count, render, held)];
      if render {
        lcdAt := |frames|;
      }
    }

    /** The last tick was the one at which the emulator stopped. */
    predicate Stopped()
      reads this
    {
      ticks != [] && !still(|ticks| - 1)
    }

    method Press(name: Button)
      modifies this`held
      ensures held == old(held) + {name}
    {
      held := held + {name};
    }

    method Release(name: Button)
      modifies this`held
      ensures held == old(held) - {name}
    {
      held := held - {name};
    }

    method CaptureNative() returns (frame: Frame)
      requires Valid()
      ensures frame == Lcd()
    {
      frame := frames[..lcdAt];
    }
  }

  /** Successive readings of the clock, in any order. */
  class Clock {
    const at: nat -> real
    var readings: nat

    constructor (at: nat -> real)
      ensures this.at == at && readings == 0
    {
      this.at := at;
      readings := 0;
    }

    method Now() returns (t: real)
      modifies this
      ensures t == at(old(readings)) && readings == old(readings) + 1
    {
      t := at(readings);
      readings := readings + 1;
    }
  }

  /** The caller's interrupt rule, with the frames it has been shown. */
  class Monitor {
    const decide: Decide
    var shown: seq<Frame>

    constructor (decide: Decide)
      ensures this.decide == decide && shown == []
    {
      this.decide := decide;
      shown := [];
    }

    method Evaluate(frame: Frame, evalIndex: nat) returns (decision: Option<Decision>)
      requires evalIndex == |shown|
      modifies this
      ensures shown == old(shown) + [frame] && decision == decide(shown)
    {
      shown := shown + [frame];
      decision := decide(shown);
    }
  }

  // ---------------------------------------------------------------------------------------------
  // Ticks and buttons

  /** What a run of ticks of one chord adds to the log. */
  ghost predicate TicksOf(added: seq<Tick>, chord: Chord) {
    forall t :: t in added ==> TickOk(t) && t.held == chord
  }

  lemma {:induction false} TicksJoin(a: seq<Tick>, b: seq<Tick>, c: seq<Tick>, chord: Chord)
    requires a <= b <= c && TicksOf(b[|a|..], chord) && TicksOf(c[|b|..], chord)
    ensures a <= c && TicksOf(c[|a|..], chord)
  {
    assert c[|a|..] == b[|a|..] + c[|b|..];
  }

  /** At most `count` frames of one chord have been played. */
  ghost predicate Grew(before: seq<Chord>, after: seq<Chord>, chord: Chord, count: nat) {
    0 <= |after| - |before| <= count && after == before + Repeat(chord, |after| - |before|)
  }

  method TickWithoutRender(boy: PyBoy, count: nat) returns (running: bool)
    requires boy.Valid()
    modifies boy`frames, boy`lcdAt, boy`ticks
    ensures boy.Valid() && boy.lcdAt == old(boy.lcdAt)
    ensures Grew(old(boy.frames), boy.frames, boy.held, count)
    ensures if running then boy.frames == old(boy.frames) + Repeat(boy.held, count) else boy.Stopped()
    ensures old(boy.ticks) <= boy.ticks && TicksOf(boy.ticks[|old(boy.ticks)|..], boy.held)
    ensures forall t :: t in boy.ticks[|old(boy.ticks)|..] ==> !t.render
    ensures count > 0 ==> |boy.ticks| > |old(boy.ticks)|
  {
    var remaining := count;
    while remaining > 0
      invariant 0 <= remaining <= count && boy.Valid() && boy.lcdAt == old(boy.lcdAt)
      invariant boy.frames == old(boy.frames) + Repeat(boy.held, count - remaining)
      invariant old(boy.ticks) <= boy.ticks && TicksOf(boy.ticks[|old(boy.ticks)|..], boy.held)
      invariant forall t :: t in boy.ticks[|old(boy.ticks)|..] ==> !t.render
      invariant remaining < count ==> |boy.ticks| > |old(boy.ticks)|
    {
      var n := Min(MAX_TICK_WITHOUT_RENDER, remaining);
      running := boy.Tick(n, false);
      remaining := remaining - n;
      if !running {
        return;
      }
    }
    running := true;
  }

  lemma {:induction false} GrewJoin(a: seq<Chord>, b: seq<Chord>, c: seq<Chord>, chord: Chord, m: nat, n: nat)
    requires Grew(a, b, chord, m) && Grew(b, c, chord, n)
    ensures Grew(a, c, chord, m + n)
  {
  }

  /** The frames of a chunk after its first rendered one, if any. */
  method TickRest(boy: PyBoy, left: nat, renderLast: bool) returns (running: bool)
    requires boy.Valid() && left > 0
    modifies boy`frames, boy`lcdAt, boy`ticks
    ensures boy.Valid() && Grew(old(boy.frames), boy.frames, boy.held, left)
    ensures if running then |boy.frames| == |old(boy.frames)| + left else boy.Stopped()
    ensures running ==> boy.lcdAt == if renderLast then |boy.frames| else old(boy.lcdAt)
    ensures old(boy.ticks) < boy.ticks && TicksOf(boy.ticks[|old(boy.ticks)|..], boy.held)
    ensures left > 1 ==> !boy.ticks[|old(boy.ticks)|].render
  {
    if !renderLast {
      running := TickWithoutRender(boy, left);
      return;
    }
    if left > 1 {
      running := TickWithoutRender(boy, left - 1);
      if !running {
        return;
      }
    }
    ghost var most, played := boy.ticks, boy.frames;
    running := boy.Tick(1, true);
    TicksJoin(old(boy.ticks), most, boy.ticks, boy.held);
    GrewJoin(old(boy.frames), played, boy.frames, boy.held, left - 1, 1);
  }

  method TickChunk(boy: PyBoy, count: nat, renderLast: bool, renderFirst: bool) returns (running: bool)
    requires boy.Valid()
    modifies boy`frames, boy`lcdAt, boy`ticks
    ensures boy.Valid()
    ensures Grew(old(boy.frames), boy.frames, boy.held, count)
    ensures if running then boy.frames == old(boy.frames) + Repeat(boy.held, count) else boy.Stopped()
    ensures running && count > 0 ==>
              boy.lcdAt == if renderLast then |boy.frames| else if renderFirst then |old(boy.frames)| + 1
                           else old(boy.lcdAt)
    ensures old(boy.ticks) <= boy.ticks && TicksOf(boy.ticks[|old(boy.ticks)|..], boy.held)
    ensures count > 0 ==> |boy.ticks| > |old(boy.ticks)|
    ensures count > 0 && renderFirst ==> boy.ticks[|old(boy.ticks)|].render
    ensures count > 1 && !renderFirst ==> !boy.ticks[|old(boy.ticks)|].render
  {
    if count <= 0 {
      return true;
    }
    var left := count;
    if renderFirst {
      running := boy.Tick(1, true);
      if !running {
        return;
      }
      left := left - 1;
      if left == 0 {
        return;
      }
    }
    ghost var first, played := boy.ticks, boy.frames;
    running := TickRest(boy, left, renderLast);
    TicksJoin(old(boy.ticks), first, boy.ticks, boy.held);
    GrewJoin(old(boy.frames), played, boy.frames, boy.held, count - left, left);
  }

  method ReleaseAll(boy: PyBoy, pressed: Chord)
    modifies boy`held
    ensures boy.held == old(boy.held) - pressed
  {
    var names := pressed;
    while names != {}
      invariant names <= pressed && boy.held == old(boy.held) - (pressed - names)
      decreases names
    {
      var name :| name in names;
      boy.Release(name);
      names := names - {name};
    }
  }

  /** A different chord drops everything and presses the new set. */
  method SetButtons(boy: PyBoy, pressed: Chord, desired: seq<Button>) returns (now: Chord, changed: bool)
    requires boy.held == pressed
    modifies boy`held
    ensures boy.held == now == ChordOf(desired)
    ensures changed <==> ChordOf(desired) != pressed
  {
    if ChordOf(desired) == pressed {
      return pressed, false;
    }
    ReleaseAll(boy, pressed);
    now := {};
    for i := 0 to |desired|
      invariant boy.held == now == ChordOf(desired[..i])
    {
      assert ChordOf(desired[..i + 1]) == ChordOf(desired[..i]) + {desired[i]};
      if desired[i] in now {
        continue;
      }
      boy.Press(desired[i]);
      now := now + {desired[i]};
    }
    assert desired[..|desired|] == desired;
    changed := true;
  }
}
