/** The caller's `blocked` and the default abort of a directional hold on one counter: which promises the
    calls of a request keep, and calls that break the others. */
module SharedCounter {
  import opened PlayTypes
  import opened Phases
  import opened EngineReference
  import opened UntilMonitor

  /** What a monitor can have been shown: the pictures of one call grow, and it decided on none before
      the last. */
  ghost predicate History(w: Watch, seen: seq<Frame>) {
    && seen != [] && w.base < seen[0]
    && (forall i :: 0 < i < |seen| ==> seen[i - 1] < seen[i])
    && (forall k :: 0 < k < |seen| ==> w.Verdict(seen[..k]).None?)
  }

  /** Every call shows its monitor such a history. */
  lemma {:induction false} ShownIsHistory(c: Config, w: Watch, n: nat)
    requires c.Valid() && n <= c.Total() && c.decide == Some(Rule(w)) && w.base <= c.past && Run(c, n).shown != []
    ensures History(w, Run(c, n).shown)
  {
    FirstDecision(c, n);
    ShownGrow(c, n);
    var shown := Run(c, n).shown;
    forall k | 0 < k < |shown| ensures w.Verdict(shown[..k]).None? {
      assert shown[..k] != [] && Rule(w)(shown[..k]) == w.Verdict(shown[..k]);
    }
  }

  /** Frames that grow, all of them pictures up to the last. */
  ghost predicate Growing(past: Frame, shown: seq<Frame>, last: Frame) {
    && (forall i :: 0 <= i < |shown| ==> past < shown[i] <= last)
    && (forall i :: 0 < i < |shown| ==> shown[i - 1] < shown[i])
  }

  lemma {:induction false} GrowingSnoc(past: Frame, shown: seq<Frame>, last: Frame, now: Frame)
    requires Growing(past, shown, last) && past <= last < now
    ensures Growing(past, shown, now) && Growing(past, shown + [now], now)
  {
    forall i | 0 <= i < |shown| ensures past < shown[i] < now {
      assert shown[i] <= last;
    }
  }

  lemma {:induction false} ShownGrow(c: Config, n: nat)
    requires c.Valid() && n <= c.Total()
    ensures Growing(c.past, Run(c, n).shown, c.Picture(Run(c, n).n))
  {
    if n > 0 {
      ShownGrow(c, n - 1);
      var before := Run(c, n - 1);
      if before.fired.None? {
        assert c.Picture(n) == c.Picture(n - 1) + [c.slots[n - 1].Chord()];
        GrowingSnoc(c.past, before.shown, c.Picture(n - 1), c.Picture(n));
      }
    }
  }

  /** The caller's promise: `blocked` answers exactly on N still evaluations in a row. */
  ghost predicate BlockedAsPromised(w: Watch, seen: seq<Frame>)
    requires seen != [] && w.play.until.Some?
  {
    w.CallerSays(seen).Some? <==> LastAll(w, StillStreak, seen, 1, w.play.until.value.stableFrames)
  }

  /** The default abort's promise: it ends a call as blocked only after twelve still evaluations in a
      row, the grace period over. */
  ghost predicate AbortAsPromised(w: Watch, seen: seq<Frame>)
    requires seen != []
  {
    w.Verdict(seen) == Abort("blocked") ==> LastAll(w, StillStreak, seen, TURN_GRACE_EVALS, DEFAULT_STABLE_FRAMES)
  }

  lemma {:induction false} OneStillIsEnough(w: Watch, seen: seq<Frame>)
    requires w.On(Blocked) && w.AbortCounts() && w.play.until.value.stableFrames == 1 && seen != []
    ensures BlockedAsPromised(w, seen)
  {
    BlockedFiresShared(w, seen);
    assert LastAll(w, StillStreak, seen, 1, 1) <==> w.Counts(StillStreak, seen, |seen| - 1);
    assert |seen| > TURN_GRACE_EVALS ==>
        (LastAll(w, StillStreak, seen, TURN_GRACE_EVALS, 1) <==> w.Counts(StillStreak, seen, |seen| - 1));
  }

  /** With the counter shared a call never lives to see twelve still evaluations in a row: it is over
      after the sixth since the grace period. */
  lemma {:induction false} NeverTwelveInARow(w: Watch, seen: seq<Frame>, n: nat)
    requires w.Shared() && History(w, seen) && n >= 12
    ensures !LastAll(w, StillStreak, seen, 1, n)
  {
    if LastAll(w, StillStreak, seen, 1, n) {
      var before := seen[..|seen| - 1];
      forall k | |before| - 6 <= k < |before| ensures w.Counts(StillStreak, before, k) {
        CountsInPrefix(w, StillStreak, seen, |before|, k);
      }
      AbortFiresEarlyWhenShared(w, before);
      assert false;
    }
  }

  /** With N at its default of 12 or more, a call whose counter is shared never ends with "blocked": the
      default abort always comes first. */
  lemma {:induction false} CallerNeverBlocks(w: Watch, seen: seq<Frame>)
    requires w.On(Blocked) && w.AbortCounts() && w.play.until.value.stableFrames >= 12 && |seen| > 1
    requires w.Verdict(seen[..|seen| - 1]).None?
    ensures w.CallerSays(seen).None?
  {
    var before := seen[..|seen| - 1];
    assert w.Run(StillStreak, before, TURN_GRACE_EVALS) <= 5;
    assert w.Run(StillStreak, seen, TURN_GRACE_EVALS) <= 6;
  }

  // ---------------------------------------------------------------------------------------------
  // The calls of a request

  /** One call of a request: what its monitor's eyes make of frames, what was played before it and of that
      is on the LCD, its capture plan, and how many of its frames are played. */
  datatype Call = Call(see: Vision, past: Frame, lcd: Frame, plan: Option<Wants>, frames: nat) {
    function Eyes(play: PlayInput): Watch { Watch(see, play, lcd) }

    function Setting(play: PlayInput): (c: Config)
      requires Playable(play)
      ensures c.Valid() && c.decide == Some(Rule(Eyes(play))) && c.past == past
    {
      Setup(play, plan, Some(Rule(Eyes(play))), past)
    }

    /** A call that gets as far as showing its monitor something. */
    predicate Of(play: PlayInput) {
      && Playable(play) && lcd <= past && frames <= Setting(play).Total()
      && Run(Setting(play), frames).shown != []
    }

    /** The frames it shows its monitor. */
    function Shown(play: PlayInput): (seen: seq<Frame>)
      requires Of(play)
      ensures seen != []
    {
      Run(Setting(play), frames).shown
    }
  }

  /** How often a hold can be looked at: its frame budget over the interval, rounded up. */
  function Looks(play: PlayInput): nat { RoundUp(Budget(play), Max(1, play.untilEvalInterval)) }

  lemma {:induction false} HoldLooks(play: PlayInput, call: Call)
    requires play.macro == Hold
    ensures Evaluations(call.Setting(play)) == Looks(play)
  {
    FlattenedSchedule(play, Budget(play), 0);
  }

  /** Whether the counter is shared depends on the request alone. */
  predicate SharedBy(play: PlayInput) { Watch(Blind(0), play, []).Shared() }

  function StillsAsked(play: PlayInput): nat { if play.until.Some? then play.until.value.stableFrames else 0 }

  /** A call shows a history, and of a hold no more than there are looks. */
  lemma {:induction false} CallHistory(play: PlayInput, call: Call)
    requires call.Of(play)
    ensures History(call.Eyes(play), call.Shown(play))
    ensures play.macro == Hold ==> |call.Shown(play)| <= Looks(play)
  {
    var c := call.Setting(play);
    ShownIsHistory(c, call.Eyes(play), call.frames);
    EvaluationsAtMost(c, call.frames);
    if play.macro == Hold {
      HoldLooks(play, call);
    }
  }

  /** When the looks suffice for the caller's promise to break: to see N still evaluations, or to count
      past half of N after the grace period. */
  function LooksToBreak(n: nat): nat { Min(n + 1, TURN_GRACE_EVALS + n / 2 + 1) }

  /** Every call of a request keeps the caller's promise, if and only if the counter is not shared, or N is
      1, or N is so large that the abort comes first, or the call is too short to get it wrong. */
  lemma {:induction false} BlockedPromise(play: PlayInput)
    requires Playable(play) && play.until.Some? && play.until.value.on == Blocked && StillsAsked(play) >= 1
    ensures (forall call: Call :: call.Of(play) ==> BlockedAsPromised(call.Eyes(play), call.Shown(play)))
            <==> !(SharedBy(play) && 2 <= StillsAsked(play) < DEFAULT_STABLE_FRAMES
                   && Looks(play) >= LooksToBreak(StillsAsked(play)))
  {
    var n := StillsAsked(play);
    if SharedBy(play) && 2 <= n < DEFAULT_STABLE_FRAMES && Looks(play) >= LooksToBreak(n) {
      var call := BrokenPromise(play);
    } else {
      forall call: Call | call.Of(play) ensures BlockedAsPromised(call.Eyes(play), call.Shown(play)) {
        CallHistory(play, call);
        KeptPromise(call.Eyes(play), call.Shown(play));
      }
    }
  }

  lemma {:induction false} KeptPromise(w: Watch, seen: seq<Frame>)
    requires w.On(Blocked) && History(w, seen)
    requires var n := w.play.until.value.stableFrames;
             n >= 1 && (!w.AbortCounts() || n == 1 || n >= 12 || |seen| < LooksToBreak(n))
    ensures BlockedAsPromised(w, seen)
  {
    var n := w.play.until.value.stableFrames;
    if !w.AbortCounts() {
      BlockedFiresAlone(w, seen);
    } else if n == 1 {
      OneStillIsEnough(w, seen);
    } else if n >= 12 {
      NeverTwelveInARow(w, seen, n);
      if |seen| > 1 {
        CallerNeverBlocks(w, seen);
      }
    } else {
      BlockedFiresShared(w, seen);
    }
  }

  /** Every call of a request keeps the default abort's promise, if and only if the counter is not shared, or
      the caller's N is small enough to answer first, or the call is too short. */
  lemma {:induction false} AbortPromise(play: PlayInput)
    requires Playable(play) && (play.until.Some? && play.until.value.on == Blocked ==> StillsAsked(play) >= 1)
    ensures (forall call: Call :: call.Of(play) ==> AbortAsPromised(call.Eyes(play), call.Shown(play)))
            <==> !(SharedBy(play) && StillsAsked(play) >= DEFAULT_STABLE_FRAMES && Looks(play) >= TURN_GRACE_EVALS + 6)
  {
    if SharedBy(play) && StillsAsked(play) >= DEFAULT_STABLE_FRAMES && Looks(play) >= TURN_GRACE_EVALS + 6 {
      var call := AbortTooEarly(play);
    } else {
      forall call: Call | call.Of(play) ensures AbortAsPromised(call.Eyes(play), call.Shown(play)) {
        CallHistory(play, call);
        AbortKept(call.Eyes(play), call.Shown(play));
      }
    }
  }

  /** The caller's answers are never the default abort's. */
  lemma {:induction false} CallerIsNotAbort(w: Watch, seen: seq<Frame>)
    requires seen != []
    ensures w.CallerSays(seen) != Abort("blocked")
    ensures w.SceneAbort(seen[|seen| - 1]) != Abort("blocked")
  {
    assert "default_hold_abort"[0] == 'd';
    assert "screen_change"[0] != 'd' && "stable"[0] != 'd' && "hash_match"[0] != 'd' && "hash_mismatch"[0] != 'd'
           && "classifier"[0] != 'd' && "fade"[0] != 'd' && "blocked"[0] != 'd';
    assert "blocked"[1] == 'l' && "battle"[1] != 'l' && "textbox"[1] != 'l' && "menu"[1] != 'l' && "fade"[1] != 'l';
  }

  lemma {:induction false} AbortKept(w: Watch, seen: seq<Frame>)
    requires seen != [] && (w.On(Blocked) ==> w.play.until.value.stableFrames >= 1)
    requires !w.Shared() || w.play.until.value.stableFrames < DEFAULT_STABLE_FRAMES || |seen| < TURN_GRACE_EVALS + 6
    ensures AbortAsPromised(w, seen)
  {
    CallerIsNotAbort(w, seen);
    if w.AbortBlocked(seen) {
      if w.On(Blocked) {
        AbortFiresEarlyWhenShared(w, seen);
        BlockedFiresShared(w, seen);
        assert LastAll(w, StillStreak, seen, TURN_GRACE_EVALS, w.play.until.value.stableFrames / 2 + 1);
      } else {
        AbortFiresAlone(w, seen);
      }
    }
  }

  // ---------------------------------------------------------------------------------------------
  // Calls that break a promise: nothing to see, and no movement from some frame on

  /** Eyes that see nothing at all, and frames longer than `from` standing still. */
  function Blind(from: nat): Vision {
    var nothing := Flags(false, false, false, false);
    Vision((a, b, r) => 0.0, f => false, (a: Frame, b: Frame) => |b| > from, (f, b) => nothing, f => nothing,
           f => false, (f, r) => "", f => 0.0, (f, b) => false)
  }

  /** With blind eyes a shared counter decides nothing until the wall has been met for a while. */
  lemma {:induction false} BlindVerdict(w: Watch, from: nat, seen: seq<Frame>)
    requires w.Shared() && w.play.until.value.stableFrames >= 2 && w.see == Blind(from) && seen != []
    requires forall k :: TURN_GRACE_EVALS <= k < |seen| ==> |seen[k]| > from
    ensures var n, run := w.play.until.value.stableFrames, Max(0, |seen| - TURN_GRACE_EVALS);
            && (w.CallerSays(seen).Some? <==> run >= n / 2 + 1)
            && w.Verdict(seen) == if run >= n / 2 + 1 then Says("blocked", Some("blocked"))
                                  else if run >= 6 then Abort("blocked") else None
  {
    var n, run := w.play.until.value.stableFrames, Max(0, |seen| - TURN_GRACE_EVALS);
    assert forall k :: TURN_GRACE_EVALS <= k < |seen| ==> w.Counts(StillStreak, seen, k);
    BlockedFiresShared(w, seen);
    AbortFiresEarlyWhenShared(w, seen);
    assert LastAll(w, StillStreak, seen, TURN_GRACE_EVALS, n / 2 + 1) <==> run >= n / 2 + 1;
    assert LastAll(w, StillStreak, seen, TURN_GRACE_EVALS, 6) <==> run >= 6;
  }

  /** The frame count up to which a wall is not met before the grace period is over. */
  function GraceFrames(play: PlayInput): nat { TURN_GRACE_EVALS * Max(1, play.untilEvalInterval) }

  /** The call of blind eyes, on a fresh emulator, that stops at its m-th look. */
  function BlindCall(play: PlayInput, from: nat, m: nat): Call
    requires Playable(play) && m > 0
  {
    var setting := Call(Blind(from), [], [], None, 0).Setting(play);
    Call(Blind(from), [], [], None, EvalFrame(setting, m - 1))
  }

  /** A look after the grace period shows more frames than the grace period has, and every look some. */
  lemma {:induction false} LookLengths(play: PlayInput, c: Config, i: nat)
    requires c.Valid() && c.past == [] && c.interval == Max(1, play.untilEvalInterval) && i < Evaluations(c)
    ensures |c.Picture(EvalFrame(c, i))| > 0
    ensures i < TURN_GRACE_EVALS ==> |c.Picture(EvalFrame(c, i))| <= GraceFrames(play)
    ensures i >= TURN_GRACE_EVALS ==> |c.Picture(EvalFrame(c, i))| > GraceFrames(play)
  {
    MulOrder(1, i + 1, c.interval);
    if i < TURN_GRACE_EVALS {
      MulOrder(i + 1, TURN_GRACE_EVALS, c.interval);
    } else {
      MulOrder(TURN_GRACE_EVALS + 1, i + 1, c.interval);
      MulStep(TURN_GRACE_EVALS, c.interval);
      MulOrder(TURN_GRACE_EVALS, Evaluations(c) - 1, c.interval);
    }
  }

  /** It is a call of the request, shows its monitor m pictures, and so long met a wall or none at all. */
  lemma {:induction false} BlindCallShows(play: PlayInput, from: nat, m: nat)
    requires SharedBy(play) && StillsAsked(play) >= 2 && (from == 0 || from == GraceFrames(play))
    requires 0 < m <= Looks(play) && m <= TURN_GRACE_EVALS + Min(6, StillsAsked(play) / 2 + 1)
    ensures var call := BlindCall(play, from, m);
            && call.Of(play) && |call.Shown(play)| == m
            && (forall i :: TURN_GRACE_EVALS <= i < m ==> |call.Shown(play)[i]| > from)
            && (forall i :: 0 <= i < m ==> |call.Shown(play)[i]| > 0)
            && (from > 0 ==> forall i :: 0 <= i < m && i < TURN_GRACE_EVALS ==> |call.Shown(play)[i]| <= from)
  {
    var call := BlindCall(play, from, m);
    var c, w := call.Setting(play), call.Eyes(play);
    HoldLooks(play, call);
    forall i | 0 <= i < m
      ensures |c.Picture(EvalFrame(c, i))| > 0
      ensures i < TURN_GRACE_EVALS ==> |c.Picture(EvalFrame(c, i))| <= GraceFrames(play)
      ensures i >= TURN_GRACE_EVALS ==> |c.Picture(EvalFrame(c, i))| > GraceFrames(play)
    {
      LookLengths(play, c, i);
    }
    forall k | 0 < k < m ensures c.decide.value(LookedAt(c, k)).None? {
      BlindVerdict(w, from, LookedAt(c, k));
    }
    RunShows(c, m);
  }

  /** The caller's promise broken by a call of the request: up to N = 6, N still evaluations that are not
      answered because the first four are not counted, and from N = 7 a wall met when the grace period is
      over, which is answered after half of N. */
  lemma {:induction false} BrokenPromise(play: PlayInput) returns (call: Call)
    requires SharedBy(play) && 2 <= StillsAsked(play) < DEFAULT_STABLE_FRAMES
    requires Looks(play) >= LooksToBreak(StillsAsked(play))
    ensures call.Of(play) && !BlockedAsPromised(call.Eyes(play), call.Shown(play))
  {
    var n := StillsAsked(play);
    var from := if n <= 6 then 0 else GraceFrames(play);
    call := BlindCall(play, from, LooksToBreak(n));
    BlindCallShows(play, from, LooksToBreak(n));
    var w, seen := call.Eyes(play), call.Shown(play);
    BlindVerdict(w, from, seen);
    if n <= 6 {
      assert LastAll(w, StillStreak, seen, 1, n);
    } else {
      assert !w.Counts(StillStreak, seen, TURN_GRACE_EVALS - 1);
      assert |seen| - n <= TURN_GRACE_EVALS - 1;
    }
  }

  /** The default abort's promise broken by a call of the request: a wall met when the grace period is over
      ends it after six still evaluations. */
  lemma {:induction false} AbortTooEarly(play: PlayInput) returns (call: Call)
    requires SharedBy(play) && StillsAsked(play) >= DEFAULT_STABLE_FRAMES && Looks(play) >= TURN_GRACE_EVALS + 6
    ensures call.Of(play) && !AbortAsPromised(call.Eyes(play), call.Shown(play))
  {
    call := BlindCall(play, GraceFrames(play), TURN_GRACE_EVALS + 6);
    BlindCallShows(play, GraceFrames(play), TURN_GRACE_EVALS + 6);
    BlindVerdict(call.Eyes(play), GraceFrames(play), call.Shown(play));
  }
}
