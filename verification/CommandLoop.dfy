/** The emulator session: one worker thread, any number of submitters and stoppers, a list, a lock
    and two events, interleaved one atomic action at a time. */
module CommandLoop {

  datatype Op = StopOp | OtherOp

  /** One submitted command; its number tells the submitting call. */
  datatype Command = Command(caller: nat, op: Op)

  /** Where the worker is in its thread function. */
  datatype WorkerAt =
    | Starting      // building the emulator and restoring its snapshot
    | LoopTest      // while not stop requested
    | PopLock | PopSwap | PopClear | PopUnlock
    | Handling
    | Recheck       // stop requested after an empty pop?
    | IdleCheck
    | Waiting       // in cmd_available.wait
    | Saving        // snapshot and close
    | FailLock | FailSwap | FailClear | FailUnlock | Failing
    | MarkClosed | LastSet
    | Gone

  datatype CallerAt = Checked | Locked | Appended | Unlocked | InWait

  datatype Holder = Nobody | Worker | Caller(id: nat)

  datatype State = State(
    worker: WorkerAt,
    lock: Holder,
    queue: seq<Command>,
    batch: seq<Command>,
    available: bool,
    stop: bool,
    closed: bool,
    callers: map<nat, CallerAt>,
    stoppers: set<nat>,          // between setting stop and setting available
    log: seq<Command>,           // every command ever appended, in order
    answered: seq<Command>)      // every command completed or failed, in order

  function Init(): State {
    State(Starting, Nobody, [], [], false, false, false, map[], {}, [], [])
  }

  datatype Step =
    | Work                       // the worker's next action
    | WorkFails                  // ... when it raises: during start, save or close
    | IdleOut                    // the idle deadline has passed
    | WaitTimesOut
    | Submit(id: nat, op: Op)    // the call's next action
    | RequestStop(id: nat)       // sets stop
    | SignalStop(id: nat)        // sets available

  predicate Enabled(s: State, step: Step) {
    match step
    case Work =>
      && s.worker != Gone
      && (s.worker.PopLock? || s.worker.FailLock? ==> s.lock == Nobody)
      && (s.worker == Waiting ==> s.available)
    case WorkFails => s.worker.Starting? || s.worker.Saving?
    case IdleOut => s.worker == IdleCheck
    case WaitTimesOut => s.worker == Waiting
    case Submit(id, _) =>
      if id !in s.callers then s.worker != Gone && !s.closed
      else (s.callers[id] == Checked ==> s.lock == Nobody) && s.callers[id] != InWait
    case RequestStop(id) => id !in s.stoppers
    case SignalStop(id) => id in s.stoppers
  }

  function AnswerFirst(s: State, last: WorkerAt): State
    requires s.batch != []
  {
    var c := s.batch[0];
    s.(answered := s.answered + [c], batch := s.batch[1..],
       stop := s.stop || (s.worker == Handling && c.op == StopOp),
       worker := if |s.batch| == 1 then last else s.worker)
  }

  function WorkerNext(s: State): State {
    match s.worker
    case Starting => s.(worker := LoopTest)
    case LoopTest => s.(worker := if s.stop then Saving else PopLock)
    case PopLock => s.(worker := PopSwap, lock := Worker)
    case PopSwap => s.(worker := PopClear, batch := s.queue, queue := [])
    case PopClear => s.(worker := PopUnlock, available := false)
    case PopUnlock => s.(worker := if s.batch == [] then Recheck else Handling, lock := Nobody)
    case Handling => if s.batch == [] then s.(worker := LoopTest) else AnswerFirst(s, LoopTest)
    case Recheck => s.(worker := if s.stop then Saving else IdleCheck)
    case IdleCheck => s.(worker := Waiting)
    case Waiting => s.(worker := LoopTest)
    case Saving => s.(worker := MarkClosed)
    case FailLock => s.(worker := FailSwap, lock := Worker)
    case FailSwap => s.(worker := FailClear, batch := s.queue, queue := [])
    case FailClear => s.(worker := FailUnlock, available := false)
    case FailUnlock => s.(worker := if s.batch == [] then MarkClosed else Failing, lock := Nobody)
    case Failing => if s.batch == [] then s.(worker := MarkClosed) else AnswerFirst(s, MarkClosed)
    case MarkClosed => s.(worker := LastSet, closed := true)
    case LastSet => s.(worker := Gone, available := true)
    case Gone => s
  }

  function CallerNext(s: State, id: nat, op: Op): State {
    if id !in s.callers then s.(callers := s.callers[id := Checked])
    else match s.callers[id]
      case Checked => s.(callers := s.callers[id := Locked], lock := Caller(id))
      case Locked =>
        s.(callers := s.callers[id := Appended], queue := s.queue + [Command(id, op)], log := s.log + [Command(id, op)])
      case Appended => s.(callers := s.callers[id := Unlocked], lock := Nobody)
      case Unlocked => s.(callers := s.callers[id := InWait], available := true)
      case InWait => s
  }

  function Next(s: State, step: Step): State
    requires Enabled(s, step)
  {
    match step
    case Work => WorkerNext(s)
    case WorkFails => s.(worker := FailLock)
    case IdleOut => s.(worker := Saving)
    case WaitTimesOut => s.(worker := LoopTest)
    case Submit(id, op) => CallerNext(s, id, op)
    case RequestStop(id) => s.(stop := true, stoppers := s.stoppers + {id})
    case SignalStop(id) => s.(available := true, stoppers := s.stoppers - {id})
  }

  // ---------------------------------------------------------------------------------------------
  // What every interleaving keeps

  predicate AboutToSignal(at: CallerAt) { at.Appended? || at.Unlocked? }

  /** Some call has appended its command and not yet set the event. */
  ghost predicate Publishing(s: State) {
    exists id :: id in s.callers && AboutToSignal(s.callers[id])
  }

  predicate HasAppended(at: CallerAt) { at.Appended? || at.Unlocked? || at.InWait? }

  predicate InsidePop(at: WorkerAt) {
    at.PopSwap? || at.PopClear? || at.PopUnlock? || at.FailSwap? || at.FailClear? || at.FailUnlock?
  }

  /** The lock is held by exactly the thread inside its critical section. */
  ghost predicate LockInv(s: State) {
    && (s.lock == Worker <==> InsidePop(s.worker))
    && (forall id :: id in s.callers ==> (s.lock == Caller(id) <==> (s.callers[id].Locked? || s.callers[id].Appended?)))
    && (s.lock.Caller? ==> s.lock.id in s.callers)
  }

  /** The events never lag behind the list or the stop flag, except while someone is about to set them. */
  ghost predicate WakeInv(s: State) {
    && (s.queue != [] && !s.available ==> Publishing(s))
    && (s.worker.PopClear? || s.worker.FailClear? ==> s.queue == [])
    && ((s.worker.IdleCheck? || s.worker.Waiting?) && s.stop && !s.available ==> s.stoppers != {})
  }

  predicate HoldsBatch(at: WorkerAt) {
    at.PopClear? || at.PopUnlock? || at.Handling? || at.FailClear? || at.FailUnlock? || at.Failing?
  }

  /** Nothing is lost, duplicated or reordered. */
  predicate OrderInv(s: State) {
    && s.log == s.answered + s.batch + s.queue
    && (s.batch != [] ==> HoldsBatch(s.worker))
    && (s.closed <==> s.worker.LastSet? || s.worker.Gone?)
  }

  /** Each call appends at most once. */
  ghost predicate OwnersInv(log: seq<Command>, callers: map<nat, CallerAt>) {
    && (forall i, j :: 0 <= i < j < |log| ==> log[i].caller != log[j].caller)
    && (forall i :: 0 <= i < |log| ==> log[i].caller in callers && HasAppended(callers[log[i].caller]))
  }

  ghost predicate Inv(s: State) {
    LockInv(s) && WakeInv(s) && OrderInv(s) && OwnersInv(s.log, s.callers)
  }

  lemma {:induction false} InitInv()
    ensures Inv(Init())
  {
  }

  lemma {:induction false} WorkKeepsLock(s: State)
    requires Enabled(s, Work) && LockInv(s)
    ensures LockInv(WorkerNext(s))
  {
  }

  lemma {:induction false} CallKeepsLock(s: State, id: nat, op: Op)
    requires Enabled(s, Submit(id, op)) && LockInv(s)
    ensures LockInv(CallerNext(s, id, op))
  {
  }

  lemma {:induction false} LockKept(s: State, step: Step)
    requires Enabled(s, step) && LockInv(s)
    ensures LockInv(Next(s, step))
  {
    match step
    case Work => WorkKeepsLock(s);
    case Submit(id, op) => CallKeepsLock(s, id, op);
    case _ =>
  }

  lemma {:induction false} WorkKeepsWake(s: State)
    requires Enabled(s, Work) && WakeInv(s)
    ensures WakeInv(WorkerNext(s))
  {
  }

  lemma {:induction false} CallKeepsWake(s: State, id: nat, op: Op)
    requires Enabled(s, Submit(id, op)) && LockInv(s) && WakeInv(s)
    ensures WakeInv(CallerNext(s, id, op))
  {
    var t := CallerNext(s, id, op);
    if Publishing(s) && !t.available {
      var other :| other in s.callers && AboutToSignal(s.callers[other]);
      assert other in t.callers && AboutToSignal(t.callers[other]);
    }
    assert AboutToSignal(t.callers[id]) ==> Publishing(t);
  }

  lemma {:induction false} WakeKept(s: State, step: Step)
    requires Enabled(s, step) && LockInv(s) && WakeInv(s)
    ensures WakeInv(Next(s, step))
  {
    match step
    case Work => WorkKeepsWake(s);
    case Submit(id, op) => CallKeepsWake(s, id, op);
    case _ =>
  }

  lemma {:induction false} AnswerKeepsOrder(s: State, last: WorkerAt)
    requires s.batch != [] && (s.worker.Handling? || s.worker.Failing?) && OrderInv(s) && !last.LastSet? && !last.Gone?
    ensures OrderInv(AnswerFirst(s, last))
  {
    assert s.batch == [s.batch[0]] + s.batch[1..];
  }

  lemma {:induction false} WorkKeepsOrder(s: State)
    requires Enabled(s, Work) && OrderInv(s)
    ensures OrderInv(WorkerNext(s))
  {
    if s.batch != [] && s.worker.Handling? {
      AnswerKeepsOrder(s, LoopTest);
    } else if s.batch != [] && s.worker.Failing? {
      AnswerKeepsOrder(s, MarkClosed);
    }
  }

  lemma {:induction false} OrderKept(s: State, step: Step)
    requires Enabled(s, step) && OrderInv(s)
    ensures OrderInv(Next(s, step))
  {
    match step
    case Work => WorkKeepsOrder(s);
    case _ =>
  }

  lemma {:induction false} CallKeepsOwners(s: State, id: nat, op: Op)
    requires Enabled(s, Submit(id, op)) && OwnersInv(s.log, s.callers)
    ensures var t := CallerNext(s, id, op); OwnersInv(t.log, t.callers)
  {
    var t := CallerNext(s, id, op);
    forall i | 0 <= i < |t.log| ensures t.log[i].caller in t.callers && HasAppended(t.callers[t.log[i].caller]) {
    }
  }

  lemma {:induction false} OwnersKept(s: State, step: Step)
    requires Enabled(s, step) && OwnersInv(s.log, s.callers)
    ensures var t := Next(s, step); OwnersInv(t.log, t.callers)
  {
    match step
    case Submit(id, op) => CallKeepsOwners(s, id, op);
    case _ =>
  }

  predicate Follows(s: State, step: Step, t: State) { Enabled(s, step) && t == Next(s, step) }

  /** A run of the session: any steps, each enabled where it is taken. */
  predicate IsRun(states: seq<State>, steps: seq<Step>) {
    && |states| == |steps| + 1 && states[0] == Init()
    && forall i :: 0 <= i < |steps| ==> Follows(states[i], steps[i], states[i + 1])
  }

  lemma {:induction false} RunInv(states: seq<State>, steps: seq<Step>, i: nat)
    requires IsRun(states, steps) && i < |states|
    ensures Inv(states[i])
    decreases i
  {
    if i == 0 {
      InitInv();
    } else {
      RunInv(states, steps, i - 1);
      assert Follows(states[i - 1], steps[i - 1], states[i - 1 + 1]);
      LockKept(states[i - 1], steps[i - 1]);
      WakeKept(states[i - 1], steps[i - 1]);
      OrderKept(states[i - 1], steps[i - 1]);
      OwnersKept(states[i - 1], steps[i - 1]);
    }
  }

  /** No lost wakeup: a worker at or in its wait, with the event clear and nobody about to set it,
      has nothing queued and no stop to see. */
  lemma {:induction false} NoLostWakeup(states: seq<State>, steps: seq<Step>, i: nat)
    requires IsRun(states, steps) && i < |states|
    requires (states[i].worker.IdleCheck? || states[i].worker.Waiting?) && !states[i].available
    requires !Publishing(states[i]) && states[i].stoppers == {}
    ensures states[i].queue == [] && !states[i].stop
  {
    RunInv(states, steps, i);
  }

  /** In every reachable state the commands answered are a prefix of those appended, in order, each
      once; what is not yet answered is the batch in hand and the queue. */
  lemma {:induction false} CommandsConserved(states: seq<State>, steps: seq<Step>, i: nat)
    requires IsRun(states, steps) && i < |states|
    ensures var s := states[i];
            && s.log == s.answered + s.batch + s.queue
            && s.answered <= s.log
            && (forall j, k :: 0 <= j < k < |s.answered| ==> s.answered[j] != s.answered[k])
  {
    RunInv(states, steps, i);
    var s := states[i];
    assert forall j :: 0 <= j < |s.answered| ==> s.answered[j] == s.log[j];
  }

  /** The worker takes the whole queue in hand. */
  predicate Sweeps(s: State, step: Step) { step == Work && (s.worker.PopSwap? || s.worker.FailSwap?) }

  /** How many commands had been appended when the worker last took the queue. */
  function SweptAt(states: seq<State>, steps: seq<Step>, i: nat): nat
    requires |steps| < |states| && i <= |steps|
  {
    if i == 0 then 0
    else if Sweeps(states[i - 1], steps[i - 1]) then |states[i - 1].log|
    else SweptAt(states, steps, i - 1)
  }

  /** What a step leaves in the queue, given how many commands were swept before it. */
  lemma {:induction false} QueueStep(s: State, step: Step, k: nat)
    requires Enabled(s, step) && k <= |s.log| && s.queue == s.log[k..]
    ensures var t := Next(s, step);
            |s.log| <= |t.log| && t.queue == t.log[if Sweeps(s, step) then |s.log| else k..]
  {
    match step
    case Submit(id, op) => assert (s.log + [Command(id, op)])[k..] == s.log[k..] + [Command(id, op)];
    case _ =>
  }

  /** The queue is what was appended after the worker last took it. */
  lemma {:induction false} QueueIsUnswept(states: seq<State>, steps: seq<Step>, i: nat)
    requires IsRun(states, steps) && i <= |steps|
    ensures SweptAt(states, steps, i) <= |states[i].log|
    ensures states[i].queue == states[i].log[SweptAt(states, steps, i)..]
  {
    if i > 0 {
      QueueIsUnswept(states, steps, i - 1);
      assert Follows(states[i - 1], steps[i - 1], states[i - 1 + 1]);
      QueueStep(states[i - 1], steps[i - 1], SweptAt(states, steps, i - 1));
    }
  }

  /** When the thread is gone, the commands answered are exactly those appended before it last took the
      queue, and those appended later never will be. */
  lemma {:induction false} UnansweredCameTooLate(states: seq<State>, steps: seq<Step>, i: nat, c: Command)
    requires IsRun(states, steps) && i < |states| && states[i].worker == Gone
    ensures var k := SweptAt(states, steps, i);
            && k <= |states[i].log| && states[i].answered == states[i].log[..k]
            && states[i].queue == states[i].log[k..]
            && (c in states[i].log && c !in states[i].answered <==> c in states[i].log[k..])
  {
    RunInv(states, steps, i);
    QueueIsUnswept(states, steps, i);
    var s, k := states[i], SweptAt(states, steps, i);
    assert s.log == s.answered + s.queue && |s.answered| == k;
    assert s.log == s.log[..k] + s.log[k..];
    if c in s.log[k..] {
      var j :| k <= j < |s.log| && s.log[j] == c;
      assert forall l :: 0 <= l < k ==> s.log[l].caller != s.log[j].caller;
    }
  }

  lemma {:induction false} WorkGrows(s: State)
    ensures WorkerNext(s).log == s.log
    ensures s.answered <= WorkerNext(s).answered
  {
  }

  lemma {:induction false} StepGrows(s: State, step: Step)
    requires Enabled(s, step)
    ensures s.answered <= Next(s, step).answered && s.log <= Next(s, step).log
  {
    match step
    case Work => WorkGrows(s);
    case _ =>
  }

  /** Answers and appended commands are never taken back. */
  lemma {:induction false} HistoryGrows(states: seq<State>, steps: seq<Step>, i: nat, j: nat)
    requires IsRun(states, steps) && i <= j < |states|
    ensures states[i].answered <= states[j].answered && states[i].log <= states[j].log
    decreases j
  {
    if i < j {
      HistoryGrows(states, steps, i, j - 1);
      assert Follows(states[j - 1], steps[j - 1], states[j - 1 + 1]);
      StepGrows(states[j - 1], steps[j - 1]);
    }
  }

  /** One more step of a run. */
  lemma {:induction false} Extend(states: seq<State>, steps: seq<Step>, step: Step, t: State)
    requires IsRun(states, steps) && Follows(states[|states| - 1], step, t)
    ensures IsRun(states + [t], steps + [step])
  {
    var longer, more := states + [t], steps + [step];
    forall i | 0 <= i < |more| ensures Follows(longer[i], more[i], longer[i + 1]) {
      assert i < |steps| ==> Follows(states[i], steps[i], states[i + 1]);
    }
  }

  /** A step of a run, and the run with it. */
  lemma {:induction false} Take(states: seq<State>, steps: seq<Step>, step: Step)
    returns (later: seq<State>, more: seq<Step>)
    requires IsRun(states, steps) && Enabled(states[|states| - 1], step)
    ensures IsRun(later, more) && later == states + [Next(states[|states| - 1], step)]
  {
    later, more := states + [Next(states[|states| - 1], step)], steps + [step];
    Extend(states, steps, step, Next(states[|states| - 1], step));
  }

  // Every way out for the worker, once a stop was requested

  /** The next step on the worker's way out. */
  function ExitStep(s: State): Step {
    match s.worker
    case Starting => WorkFails
    case IdleCheck => IdleOut
    case Waiting => WaitTimesOut
    case _ => Work
  }

  /** How many such steps are left, at most. */
  function StepsLeft(s: State): nat {
    match s.worker
    case Starting => 11 + |s.queue|
    case FailLock => 10 + |s.queue|
    case FailSwap => 9 + |s.queue|
    case FailClear => 8 + |s.batch|
    case FailUnlock => 7 + |s.batch|
    case Failing => 5 + |s.batch|
    case PopLock => 10 + |s.queue|
    case PopSwap => 9 + |s.queue|
    case PopClear => 8 + |s.batch|
    case PopUnlock => 7 + |s.batch|
    case Handling => 5 + |s.batch|
    case Recheck => 5
    case IdleCheck => 5
    case Waiting => 5
    case LoopTest => 4
    case Saving => 3
    case MarkClosed => 2
    case LastSet => 1
    case Gone => 0
  }

  /** The worker can always go on towards its end, whatever the callers do not do. */
  lemma {:induction false} ExitGoesOn(s: State)
    requires LockInv(s) && s.stop && !s.lock.Caller? && s.worker != Gone
    ensures Enabled(s, ExitStep(s))
    ensures var t := Next(s, ExitStep(s));
            && StepsLeft(t) < StepsLeft(s) && t.stop && !t.lock.Caller? && t.callers == s.callers && t.log == s.log
  {
  }

  lemma {:induction false} WorkerLeaves(states: seq<State>, steps: seq<Step>)
    returns (later: seq<State>, more: seq<Step>)
    requires IsRun(states, steps)
    requires var s := states[|states| - 1]; s.stop && !s.lock.Caller?
    ensures IsRun(later, more) && states <= later
    ensures var s, t := states[|states| - 1], later[|later| - 1];
            t.worker == Gone && t.lock == Nobody && t.callers == s.callers && t.log == s.log
    decreases StepsLeft(states[|states| - 1])
  {
    later, more := states, steps;
    var s := states[|states| - 1];
    RunInv(states, steps, |states| - 1);
    if s.worker != Gone {
      ExitGoesOn(s);
      later, more := Take(states, steps, ExitStep(s));
      later, more := WorkerLeaves(later, more);
    }
  }

  /** Whoever holds the lock to append can be let through. */
  lemma {:induction false} LockIsReleased(states: seq<State>, steps: seq<Step>)
    returns (later: seq<State>, more: seq<Step>)
    requires IsRun(states, steps)
    ensures IsRun(later, more) && states <= later
    ensures var s, t := states[|states| - 1], later[|later| - 1];
            && !t.lock.Caller? && t.stop == s.stop
            && forall id :: id in s.callers && s.callers[id].Checked? ==> id in t.callers && t.callers[id].Checked?
  {
    later, more := states, steps;
    var s := states[|states| - 1];
    RunInv(states, steps, |states| - 1);
    if s.lock.Caller? {
      var step := Submit(s.lock.id, OtherOp);
      if s.callers[s.lock.id].Locked? {
        later, more := Take(later, more, step);
      }
      later, more := Take(later, more, step);
    }
  }

  /** A call past its check, with the thread gone, still appends its command and waits for it. */
  lemma {:induction false} LateAppend(states: seq<State>, steps: seq<Step>, id: nat, op: Op)
    returns (later: seq<State>, more: seq<Step>)
    requires IsRun(states, steps)
    requires var s := states[|states| - 1];
             s.worker == Gone && s.lock == Nobody && id in s.callers && s.callers[id].Checked?
    ensures IsRun(later, more) && states <= later
    ensures var t := later[|later| - 1];
            t.worker == Gone && Command(id, op) in t.queue && id in t.callers && t.callers[id] == InWait
  {
    var call := Submit(id, op);
    later, more := Take(states, steps, call);
    later, more := Take(later, more, call);
    var t := later[|later| - 1];
    assert t.queue[|t.queue| - 1] == Command(id, op);
    later, more := Take(later, more, call);
    later, more := Take(later, more, call);
  }

  /** From every reachable state in which a new call passes the check that the session runs, things can
      go so that it is never answered: the session is stopped, the worker leaves without it, and its
      command stays in the queue of a thread that is gone, until the call's own timeout. */
  lemma {:induction false} StrandedCommand(states: seq<State>, steps: seq<Step>, id: nat, op: Op)
    returns (later: seq<State>, more: seq<Step>)
    requires IsRun(states, steps)
    requires id !in states[|states| - 1].callers && Enabled(states[|states| - 1], Submit(id, op))
    ensures IsRun(later, more) && states <= later
    ensures var t := later[|later| - 1];
            && t.worker == Gone && Command(id, op) in t.queue && Command(id, op) !in t.answered
            && id in t.callers && t.callers[id] == InWait
  {
    later, more := CheckedThenGone(states, steps, id, op);
    later, more := LateAppend(later, more, id, op);
    UnansweredCameTooLate(later, more, |later| - 1, Command(id, op));
  }

  lemma {:induction false} CheckedThenGone(states: seq<State>, steps: seq<Step>, id: nat, op: Op)
    returns (later: seq<State>, more: seq<Step>)
    requires IsRun(states, steps)
    requires id !in states[|states| - 1].callers && Enabled(states[|states| - 1], Submit(id, op))
    ensures IsRun(later, more) && states <= later
    ensures var t := later[|later| - 1];
            t.worker == Gone && t.lock == Nobody && id in t.callers && t.callers[id].Checked?
  {
    later, more := Take(states, steps, Submit(id, op));
    later, more := StopIsRequested(later, more);
    later, more := LockIsReleased(later, more);
    later, more := WorkerLeaves(later, more);
  }

  lemma {:induction false} StopIsRequested(states: seq<State>, steps: seq<Step>)
    returns (later: seq<State>, more: seq<Step>)
    requires IsRun(states, steps)
    ensures IsRun(later, more) && states <= later
    ensures later[|later| - 1].stop && later[|later| - 1].callers == states[|states| - 1].callers
  {
    var stopper := Unused(states[|states| - 1].stoppers);
    later, more := Take(states, steps, RequestStop(stopper));
  }

  /** Some number is not in a finite set. */
  lemma {:induction false} Unused(used: set<nat>) returns (id: nat)
    ensures forall n :: n in used ==> n < id
  {
    id := 0;
    if used != {} {
      var n :| n in used;
      assert forall m :: m in used ==> m == n || m in used - {n};
      id := Unused(used - {n});
      id := Max(id, n + 1);
    }
  }

  function Max(a: nat, b: nat): nat { if a >= b then a else b }
}
