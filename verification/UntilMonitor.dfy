/** The interrupt monitor: the caller's `until` rule and the default abort of a long hold, with their
    streak counters. What a frame looks like (deltas, classifiers, luminance) is left open. */
module UntilMonitor {
  import opened PlayTypes
  import opened PlayDefaults
  import opened EngineReference
  import opened Text

  datatype Flags = Flags(battle: bool, textbox: bool, menu: bool, occluded: bool)

  /** What the vision code computes from frames. */
  datatype Vision = Vision(
    delta: (Frame, Frame, Region) -> real,   // share of pixels changed in a region
    nearUniform: Frame -> bool,
    still: (Frame, Frame) -> bool,           // coarse player crop unchanged
    classify: (Frame, Frame) -> Flags,       // of a frame, against the call's first frame
    classifyAlone: Frame -> Flags,
    field: Frame -> bool,                    // a tilemap field rather than a battle screen
    hash: (Frame, Region) -> string,
    playableLuma: Frame -> real,
    blackRise: (Frame, Frame) -> bool)       // the dark share rose by the occlusion step

  const HOLD_ABORT_THRESHOLD := 0.12
  const HOLD_ABORT_LUMA_JUMP := 80.0
  const DEFAULT_STABLE_FRAMES: nat := 12
  const TURN_GRACE_EVALS: nat := 4

  /** One call's monitor: its eyes, the request, and the frame the call started from. */
  datatype Watch = Watch(see: Vision, play: PlayInput, base: Frame) {
    predicate On(on: UntilOn) { play.until.Some? && play.until.value.on == on }

    predicate DirectionalHold() {
      play.macro == Hold && exists b :: b in play.buttons && Directional(b)
    }

    /** The default abort may count blocked evaluations of its own. */
    predicate AbortCounts() { play.applyDefaultHoldAbort && DirectionalHold() }

    /** One counter for the caller's `blocked` and the default abort. */
    predicate Shared() { AbortCounts() && On(Blocked) }

    function Flagged(f: Frame): Flags { see.classify(f, base) }

    function BaseFlags(): Flags { see.classifyAlone(base) }

    function LumaJump(f: Frame): real {
      var jump := see.playableLuma(f) - see.playableLuma(base);
      if jump < 0.0 then -jump else jump
    }

    predicate NewlyOccluded(f: Frame) { Flagged(f).occluded && !BaseFlags().occluded }

    predicate Has(flags: Flags, name: ClassifierName) {
      match name
      case TextboxLikely => flags.textbox
      case BattleLikely => flags.battle
      case StartMenuLikely => flags.menu
    }

    predicate FadeAbort(f: Frame) {
      see.delta(base, f, DEFAULT_REGION) > HOLD_ABORT_THRESHOLD
      && (|| see.nearUniform(f)
          || LumaJump(f) > HOLD_ABORT_LUMA_JUMP
          || NewlyOccluded(f)
          || (see.blackRise(f, base) && LumaJump(f) > HOLD_ABORT_LUMA_JUMP * 0.5))
    }

    /** Reasons of the default abort that look at one frame only, the more urgent first. */
    function SceneAbort(f: Frame): Option<Decision> {
      var changed := see.delta(base, f, DEFAULT_REGION) > HOLD_ABORT_THRESHOLD;
      if !BaseFlags().battle && Flagged(f).battle && changed && !see.field(f) then Abort("battle")
      else if !BaseFlags().textbox && Flagged(f).textbox && changed then Abort("textbox")
      else if !BaseFlags().menu && Flagged(f).menu && changed then Abort("menu")
      else if FadeAbort(f) then Abort("fade")
      else None
    }

    // The conditions that a streak counts, at evaluation k of those seen

    predicate Still(seen: seq<Frame>, k: nat) { 0 < k < |seen| && see.still(seen[k - 1], seen[k]) }

    predicate Settled(seen: seq<Frame>, k: nat) {
      && play.until.Some? && 0 < k < |seen|
      && !see.nearUniform(seen[k])
      && see.delta(seen[k - 1], seen[k], play.until.value.region) < play.until.value.threshold
    }

    predicate SettledOutdoors(seen: seq<Frame>, k: nat) {
      Settled(seen, k) && !Flagged(seen[k]).battle && !Flagged(seen[k]).textbox
    }

    predicate Counts(what: Streak, seen: seq<Frame>, k: nat) {
      match what
      case StillStreak => Still(seen, k)
      case SettledStreak => Settled(seen, k)
      case OutdoorsStreak => SettledOutdoors(seen, k)
    }

    /** How many evaluations in a row, ending with the last one seen and none before `from`, count. */
    function Run(what: Streak, seen: seq<Frame>, from: nat): nat
      decreases |seen|
    {
      if |seen| <= from || !Counts(what, seen, |seen| - 1) then 0 else 1 + Run(what, seen[..|seen| - 1], from)
    }

    // The answer by definition: from everything seen, without counters

    /** The caller's rule after the frames seen, the last of them now. */
    function CallerSays(seen: seq<Frame>): Option<Decision>
      requires seen != []
    {
      if play.until.None? then None
      else
        var until := play.until.value;
        var f := seen[|seen| - 1];
        match until.on
        case DeltaAbove =>
          if see.delta(base, f, until.region) > until.threshold then Says("screen_change", Some("fade")) else None
        case DeltaBelow =>
          if see.delta(base, f, until.region) < until.threshold then Says("screen_change", None) else None
        case Stable => if Run(SettledStreak, seen, 1) >= until.stableFrames then Says("stable", None) else None
        case HashEq =>
          if Target() != "" && see.hash(f, until.region) == Target() then Says("hash_match", None) else None
        case HashNeq =>
          if Target() != "" && see.hash(f, until.region) != Target() then Says("hash_mismatch", None) else None
        case Classifier =>
          if until.classifier.Some? && Has(Flagged(f), until.classifier.value) == (until.polarity == Appears)
          then Says("classifier", Some(Public(until.classifier.value))) else None
        case LumaJump =>
          if see.nearUniform(f) || LumaJump(f) > HOLD_ABORT_LUMA_JUMP || WasCovered(seen)
          then Says("fade", Some("fade")) else None
        case Blocked => if CallerBlocked(seen) then Says("blocked", Some("blocked")) else None
        case Overworld =>
          if Run(OutdoorsStreak, seen, 1) >= until.stableFrames then Says("stable", Some("completed")) else None
    }

    function Target(): string {
      if play.until.Some? && play.until.value.hash.Some? then Canon(play.until.value.hash.value) else ""
    }

    /** Some frame seen was newly covered, and the present one is clear. */
    predicate WasCovered(seen: seq<Frame>)
      requires seen != []
    {
      !Flagged(seen[|seen| - 1]).occluded && exists k :: 0 <= k < |seen| && NewlyOccluded(seen[k])
    }

    /** When the default abort counts too, both share one counter: it clears it during the grace period
        and afterwards each still evaluation counts twice. */
    predicate CallerBlocked(seen: seq<Frame>)
      requires seen != [] && play.until.Some?
    {
      var n := play.until.value.stableFrames;
      if !AbortCounts() then Run(StillStreak, seen, 1) >= n
      else if |seen| <= TURN_GRACE_EVALS then Run(StillStreak, seen, 1) > 0 && n <= 1
      else Run(StillStreak, seen, TURN_GRACE_EVALS) > 0 && 2 * Run(StillStreak, seen, TURN_GRACE_EVALS) - 1 >= n
    }

    predicate AbortBlocked(seen: seq<Frame>) {
      AbortCounts() && Weight() * Run(StillStreak, seen, TURN_GRACE_EVALS) >= DEFAULT_STABLE_FRAMES
    }

    /** What one still evaluation adds to the shared counter. */
    function Weight(): nat { if On(Blocked) then 2 else 1 }

    function AbortSays(seen: seq<Frame>): Option<Decision>
      requires seen != []
    {
      if !play.applyDefaultHoldAbort then None
      else if SceneAbort(seen[|seen| - 1]).Some? then SceneAbort(seen[|seen| - 1])
      else if AbortBlocked(seen) then Abort("blocked")
      else None
    }

    /** The caller's rule outranks the default abort. */
    function Verdict(seen: seq<Frame>): Option<Decision>
      requires seen != []
    {
      if CallerSays(seen).Some? then CallerSays(seen) else AbortSays(seen)
    }
  }

  datatype Streak = StillStreak | SettledStreak | OutdoorsStreak

  function Says(reason: string, detail: Option<string>): Option<Decision> { Some(Decision(reason, true, detail)) }

  function Abort(detail: string): Option<Decision> { Some(Decision("default_hold_abort", true, Some(detail))) }

  function Public(name: ClassifierName): string {
    match name
    case TextboxLikely => "textbox"
    case BattleLikely => "battle"
    case StartMenuLikely => "menu"
  }

  /** The monitor as the engine sees it: an answer for every list of frames shown. */
  function Rule(w: Watch): Decide { (seen: seq<Frame>) => if seen == [] then None else w.Verdict(seen) }

  lemma {:induction false} RunSnoc(w: Watch, what: Streak, seen: seq<Frame>, f: Frame, from: nat)
    ensures w.Run(what, seen + [f], from)
            == if |seen| < from || !w.Counts(what, seen + [f], |seen|) then 0 else 1 + w.Run(what, seen, from)
  {
    assert (seen + [f])[..|seen|] == seen;
  }

  // ---------------------------------------------------------------------------------------------
  // The monitor itself

  class UntilMonitor {
    const watch: Watch
    var prev: Option<Frame>
    var stableStreak: nat
    var blockedStreak: nat
    var classifierSeen: bool
    const disappearMetAtBaseline: bool
    var occludedSeen: bool
    ghost var seen: seq<Frame>
    ghost var decided: bool

    ghost predicate StableOk(h: seq<Frame>)
      reads this
    {
      && (watch.On(Stable) ==> stableStreak == watch.Run(SettledStreak, h, 1))
      && (watch.On(Overworld) ==> stableStreak == watch.Run(OutdoorsStreak, h, 1))
    }

    ghost predicate BlockedOk(h: seq<Frame>)
      reads this
    {
      if watch.AbortCounts() then blockedStreak == watch.Weight() * watch.Run(StillStreak, h, TURN_GRACE_EVALS)
      else watch.On(Blocked) ==> blockedStreak == watch.Run(StillStreak, h, 1)
    }

    /** Between the caller's rule and the default abort of one evaluation. */
    ghost predicate BlockedHalfway(h: seq<Frame>)
      requires h != []
      reads this
    {
      var before := h[..|h| - 1];
      if watch.AbortCounts() then
        blockedStreak == if !watch.On(Blocked) then watch.Run(StillStreak, before, TURN_GRACE_EVALS)
                         else if watch.Still(h, |h| - 1) then 2 * watch.Run(StillStreak, before, TURN_GRACE_EVALS) + 1
                         else 0
      else watch.On(Blocked) ==> blockedStreak == watch.Run(StillStreak, h, 1)
    }

    ghost predicate LatchesOk(h: seq<Frame>)
      reads this
    {
      && (watch.On(Classifier) && watch.play.until.value.classifier.Some? ==>
            classifierSeen || disappearMetAtBaseline || watch.play.until.value.polarity == Appears)
      && (watch.On(LumaJump) ==> (occludedSeen <==> exists k :: 0 <= k < |h| && watch.NewlyOccluded(h[k])))
    }

    ghost predicate PrevOk(h: seq<Frame>)
      reads this
    {
      prev == if h == [] then None else Some(h[|h| - 1])
    }

    /** Until it decides, every counter says what its history says. */
    ghost predicate Valid()
      reads this
    {
      && PrevOk(seen) && StableOk(seen) && BlockedOk(seen) && LatchesOk(seen)
      && (watch.play.until.Some? ==> watch.play.until.value.stableFrames >= 1)
    }

    constructor (watch: Watch)
      requires watch.play.until.Some? ==> watch.play.until.value.stableFrames >= 1
      ensures Valid() && this.watch == watch && seen == [] && !decided
    {
      this.watch := watch;
      prev, stableStreak, blockedStreak, occludedSeen := None, 0, 0, false;
      seen, decided := [], false;
      var until := watch.play.until;
      var present := until.Some? && until.value.on == Classifier && until.value.classifier.Some?
                     && watch.Has(watch.BaseFlags(), until.value.classifier.value);
      classifierSeen := present;
      disappearMetAtBaseline := until.Some? && until.value.on == Classifier && until.value.classifier.Some?
                                && until.value.polarity == Disappears && !present;
    }

    method EvalStable(frame: Frame) returns (decision: Option<Decision>)
      requires Valid() && watch.On(Stable)
      modifies this`stableStreak
      ensures decision == watch.CallerSays(seen + [frame]) && StableOk(seen + [frame])
    {
      RunSnoc(watch, SettledStreak, seen, frame, 1);
      var until := watch.play.until.value;
      if prev.None? { return None; }
      if watch.see.nearUniform(frame) {
        stableStreak := 0;
        return None;
      }
      if watch.see.delta(prev.value, frame, until.region) < until.threshold {
        stableStreak := stableStreak + 1;
      } else {
        stableStreak := 0;
      }
      return if stableStreak >= until.stableFrames then Says("stable", None) else None;
    }

    method EvalOverworld(frame: Frame) returns (decision: Option<Decision>)
      requires Valid() && watch.On(Overworld)
      modifies this`stableStreak
      ensures decision == watch.CallerSays(seen + [frame]) && StableOk(seen + [frame])
    {
      RunSnoc(watch, OutdoorsStreak, seen, frame, 1);
      var until := watch.play.until.value;
      var flags := watch.Flagged(frame);
      if flags.battle || flags.textbox {
        stableStreak := 0;
        return None;
      }
      if watch.see.nearUniform(frame) {
        stableStreak := 0;
        return None;
      }
      if prev.None? { return None; }
      if watch.see.delta(prev.value, frame, until.region) < until.threshold {
        stableStreak := stableStreak + 1;
      } else {
        stableStreak := 0;
      }
      return if stableStreak >= until.stableFrames then Says("stable", Some("completed")) else None;
    }

    method EvalClassifier(frame: Frame) returns (decision: Option<Decision>)
      requires Valid() && watch.On(Classifier)
      modifies this`classifierSeen
      ensures decision == watch.CallerSays(seen + [frame]) && LatchesOk(seen + [frame])
    {
      var until := watch.play.until.value;
      if until.classifier.None? { return None; }
      var present := watch.Has(watch.Flagged(frame), until.classifier.value);
      var public := Public(until.classifier.value);
      if until.polarity == Appears {
        if present {
          classifierSeen := true;
          return Says("classifier", Some(public));
        }
        return None;
      }
      if present {
        classifierSeen := true;
        return None;
      }
      return if classifierSeen || disappearMetAtBaseline then Says("classifier", Some(public)) else None;
    }

    method EvalLumaJump(frame: Frame) returns (decision: Option<Decision>)
      requires Valid() && watch.On(LumaJump)
      modifies this`occludedSeen
      ensures decision == watch.CallerSays(seen + [frame]) && LatchesOk(seen + [frame])
    {
      ghost var now := seen + [frame];
      assert forall k :: 0 <= k < |seen| ==> now[k] == seen[k];
      assert now[|now| - 1] == frame;
      var occluded := watch.Flagged(frame).occluded;
      if occluded && !watch.BaseFlags().occluded {
        occludedSeen := true;
      }
      if watch.see.nearUniform(frame) || watch.LumaJump(frame) > HOLD_ABORT_LUMA_JUMP {
        return Says("fade", Some("fade"));
      }
      return if occludedSeen && !occluded then Says("fade", Some("fade")) else None;
    }

    /** One use of the shared counter: during the grace period the default abort only clears it. */
    method EvalBlocked(frame: Frame, asUntil: bool, evalIndex: nat) returns (fired: bool)
      requires PrevOk(seen)
      modifies this`blockedStreak
      ensures ghost var now := seen + [frame];
              && blockedStreak == (if (asUntil || evalIndex >= TURN_GRACE_EVALS) && watch.Still(now, |seen|)
                                   then old(blockedStreak) + 1 else 0)
              && fired == (&& (asUntil || evalIndex >= TURN_GRACE_EVALS)
                           && seen != [] && blockedStreak >= Needed(asUntil))
    {
      if prev.None? {
        blockedStreak := 0;
        return false;
      }
      if !asUntil && evalIndex < TURN_GRACE_EVALS {
        blockedStreak := 0;
        return false;
      }
      if watch.see.still(prev.value, frame) {
        blockedStreak := blockedStreak + 1;
      } else {
        blockedStreak := 0;
      }
      fired := blockedStreak >= Needed(asUntil);
    }

    function Needed(asUntil: bool): nat {
      if asUntil && watch.play.until.Some? && watch.play.until.value.stableFrames > 0
          then watch.play.until.value.stableFrames
      else DEFAULT_STABLE_FRAMES
    }

    method EvalCallerUntil(frame: Frame) returns (decision: Option<Decision>)
      requires Valid()
      modifies this`stableStreak, this`blockedStreak, this`classifierSeen, this`occludedSeen
      ensures decision == watch.CallerSays(seen + [frame])
      ensures StableOk(seen + [frame]) && LatchesOk(seen + [frame])
      ensures decision.None? ==> BlockedHalfway(seen + [frame])
    {
      ghost var now := seen + [frame];
      assert now[..|seen|] == seen;
      if watch.play.until.None? { return None; }
      var until := watch.play.until.value;
      match until.on
      case DeltaAbove =>
        return if watch.see.delta(watch.base, frame, until.region) > until.threshold
               then Says("screen_change", Some("fade")) else None;
      case DeltaBelow =>
        return if watch.see.delta(watch.base, frame, until.region) < until.threshold
               then Says("screen_change", None) else None;
      case Stable => decision := EvalStable(frame);
      case HashEq =>
        var target := watch.Target();
        return if target != "" && watch.see.hash(frame, until.region) == target then Says("hash_match", None) else None;
      case HashNeq =>
        var target := watch.Target();
        var differs := target != "" && watch.see.hash(frame, until.region) != target;
        return if differs then Says("hash_mismatch", None) else None;
      case Classifier => decision := EvalClassifier(frame);
      case LumaJump => decision := EvalLumaJump(frame);
      case Blocked =>
        RunSnoc(watch, StillStreak, seen, frame, 1);
        RunSnoc(watch, StillStreak, seen, frame, TURN_GRACE_EVALS);
        var fired := EvalBlocked(frame, true, 0);
        decision := if fired then Says("blocked", Some("blocked")) else None;
      case Overworld => decision := EvalOverworld(frame);
    }

    method EvalDefaultHoldAbort(frame: Frame, evalIndex: nat, ghost open: bool) returns (decision: Option<Decision>)
      requires PrevOk(seen) && evalIndex == |seen| && (open ==> BlockedHalfway(seen + [frame]))
      modifies this`blockedStreak
      ensures open ==> decision == watch.AbortSays(seen + [frame]) && (decision.None? ==> BlockedOk(seen + [frame]))
    {
      ghost var now := seen + [frame];
      assert now[..|seen|] == seen;
      RunSnoc(watch, StillStreak, seen, frame, TURN_GRACE_EVALS);
      if !watch.play.applyDefaultHoldAbort { return None; }
      var scene := watch.SceneAbort(frame);
      if scene.Some? { return scene; }
      if watch.DirectionalHold() {
        var fired := EvalBlocked(frame, false, evalIndex);
        return if fired then Abort("blocked") else None;
      }
      return None;
    }

    /** One evaluation: the answer is what the frames seen so far say, counters or not. */
    method Evaluate(frame: Frame, evalIndex: nat) returns (decision: Option<Decision>)
      requires Valid() && !decided && evalIndex == |seen|
      modifies this
      ensures seen == old(seen) + [frame] && decision == watch.Verdict(seen) == Rule(watch)(seen)
      ensures decided == decision.Some? && (!decided ==> Valid())
    {
      var caller := EvalCallerUntil(frame);
      var abort := EvalDefaultHoldAbort(frame, evalIndex, caller.None?);
      prev := Some(frame);
      decision := if caller.Some? then caller else abort;
      decided := decision.Some?;
      seen := seen + [frame];
    }
  }

  // ---------------------------------------------------------------------------------------------
  // What the answers mean

  /** The last n evaluations all count, and none of them is before `from`. */
  ghost predicate LastAll(w: Watch, what: Streak, seen: seq<Frame>, from: nat, n: nat) {
    |seen| >= from + n && forall k :: |seen| - n <= k < |seen| ==> w.Counts(what, seen, k)
  }

  lemma {:induction false} CountsInPrefix(w: Watch, what: Streak, seen: seq<Frame>, m: nat, k: nat)
    requires k < m <= |seen|
    ensures w.Counts(what, seen[..m], k) == w.Counts(what, seen, k)
  {
  }

  /** A streak of n is n evaluations in a row. */
  lemma {:induction false} RunMeans(w: Watch, what: Streak, seen: seq<Frame>, from: nat, n: nat)
    requires n > 0
    ensures w.Run(what, seen, from) >= n <==> LastAll(w, what, seen, from, n)
    decreases n
  {
    if |seen| > from && w.Counts(what, seen, |seen| - 1) && n > 1 {
      var before := seen[..|seen| - 1];
      RunMeans(w, what, before, from, n - 1);
      forall k | 0 <= k < |before| ensures w.Counts(what, before, k) == w.Counts(what, seen, k) {
        CountsInPrefix(w, what, seen, |before|, k);
      }
      assert LastAll(w, what, before, from, n - 1) <==> LastAll(w, what, seen, from, n);
    }
  }

  /** `until: stable` stops the call exactly when the last N evaluations, the first one not counted, all
      found an unchanged screen that is not a solid colour. */
  lemma {:induction false} StableFires(w: Watch, seen: seq<Frame>)
    requires w.On(Stable) && w.play.until.value.stableFrames >= 1 && seen != []
    ensures w.CallerSays(seen).Some? <==> LastAll(w, SettledStreak, seen, 1, w.play.until.value.stableFrames)
  {
    RunMeans(w, SettledStreak, seen, 1, w.play.until.value.stableFrames);
  }

  /** `until: overworld` likewise, with no battle or text box in any of the N. */
  lemma {:induction false} OverworldFires(w: Watch, seen: seq<Frame>)
    requires w.On(Overworld) && w.play.until.value.stableFrames >= 1 && seen != []
    ensures w.CallerSays(seen).Some? <==> LastAll(w, OutdoorsStreak, seen, 1, w.play.until.value.stableFrames)
  {
    RunMeans(w, OutdoorsStreak, seen, 1, w.play.until.value.stableFrames);
  }

  /** `until: blocked` on its own fires on N still evaluations in a row. */
  lemma {:induction false} BlockedFiresAlone(w: Watch, seen: seq<Frame>)
    requires w.On(Blocked) && !w.AbortCounts() && w.play.until.value.stableFrames >= 1 && seen != []
    ensures w.CallerSays(seen).Some? <==> LastAll(w, StillStreak, seen, 1, w.play.until.value.stableFrames)
  {
    RunMeans(w, StillStreak, seen, 1, w.play.until.value.stableFrames);
  }

  /** The default abort on its own takes twelve still evaluations in a row after the grace period ... */
  lemma {:induction false} AbortFiresAlone(w: Watch, seen: seq<Frame>)
    requires w.AbortCounts() && !w.On(Blocked)
    ensures w.AbortBlocked(seen) <==> LastAll(w, StillStreak, seen, TURN_GRACE_EVALS, 12)
  {
    RunMeans(w, StillStreak, seen, TURN_GRACE_EVALS, 12);
  }

  /** ... but only six when the caller asks for `blocked` too, because each counts twice. */
  lemma {:induction false} AbortFiresEarlyWhenShared(w: Watch, seen: seq<Frame>)
    requires w.AbortCounts() && w.On(Blocked)
    ensures w.AbortBlocked(seen) <==> LastAll(w, StillStreak, seen, TURN_GRACE_EVALS, 6)
  {
    RunMeans(w, StillStreak, seen, TURN_GRACE_EVALS, 6);
  }

  /** With the counter shared, the caller's N means: N <= 1 during the grace period, and afterwards
      half of N + 1, rounded up, still evaluations since the grace period ended. */
  lemma {:induction false} BlockedFiresShared(w: Watch, seen: seq<Frame>)
    requires w.AbortCounts() && w.On(Blocked) && w.play.until.value.stableFrames >= 1 && seen != []
    ensures var n := w.play.until.value.stableFrames;
            w.CallerSays(seen).Some? <==>
              if |seen| <= TURN_GRACE_EVALS then n == 1 && w.Still(seen, |seen| - 1)
              else LastAll(w, StillStreak, seen, TURN_GRACE_EVALS, n / 2 + 1)
  {
    var n := w.play.until.value.stableFrames;
    RunMeans(w, StillStreak, seen, 1, 1);
    RunMeans(w, StillStreak, seen, TURN_GRACE_EVALS, n / 2 + 1);
  }

  /** `until: classifier, disappears` needs no memory: it fires on the first evaluation that does not
      show the thing, whether or not it was ever there. */
  lemma {:induction false} DisappearsIsAbsence(w: Watch, seen: seq<Frame>)
    requires w.On(Classifier) && seen != []
    requires var u := w.play.until.value; u.classifier.Some? && u.polarity == Disappears
    ensures w.CallerSays(seen).Some? <==> !w.Has(w.Flagged(seen[|seen| - 1]), w.play.until.value.classifier.value)
  {
  }
}
