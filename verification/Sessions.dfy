/** The session manager: threads that load and stop play instances, a registry of the last instance per
    email, one lock, and a backend that may lose, misjudge or leak instances. A reset is a registry
    read, a stop and a load; a shutdown is a stop per registered session; so neither adds a step. */
module Sessions {
  import opened PlayTypes

  /** An instance that was launched at some time; its number is its place in `State.made`. */
  datatype Instance = Instance(email: string, subdirectory: string)

  /** What the backend answers: `Yes` (running, accepted, started), `No` (not running, dead), or it raises;
      a join that raises asks once more, and may then find the instance gone. */
  datatype Answer = Yes | No | Raises | RaisesGone

  predicate Raised(answer: Answer) { answer.Raises? || answer.RaisesGone? }

  datatype Thread =
    | Load(email: string, subdirectory: string, current: Option<nat>, at: LoadAt)
    | Stop(email: string, subdirectory: string, session: nat, stage: StopAt)

  datatype LoadAt =
    | LoadWaits                // for the lock
    | FirstLook | AskToStop | Join | SecondLook
    | Starting
    | Launched(id: nat)        // the instance runs; the backend has not returned it yet
    | LoadDone(outcome: LoadOutcome)

  datatype LoadOutcome = AlreadyRunning(id: nat) | StillRunning(id: nat) | Failed | Started(id: nat)

  datatype StopAt = StopWaits | StopLook | StopAsk | StopJoin | StopSecondLook | StopDone(reply: StopOutcome)

  datatype StopOutcome = NoSession | OtherGame | AlreadyStopped | Stopped | NotInTime | StopRaised

  datatype State = State(
    registry: map<string, nat>,
    made: seq<Instance>,
    live: set<nat>,
    knownDead: set<nat>,
    astray: set<nat>,          // leaked by a start that raised, or marked dead while alive
    lock: Option<nat>,
    threads: map<nat, Thread>)

  function Init(): State { State(map[], [], {}, {}, {}, None, map[]) }

  datatype Step =
    | BeginLoad(t: nat, email: string, subdirectory: string)
    | BeginStop(t: nat, email: string, subdirectory: string)
    | Go(t: nat, answer: Answer)     // the thread's next action, with what the backend answers
    | Status(id: nat, answer: Answer) // any status call whose query failed; the answer is the second query's
    | Die(id: nat)                   // idle timeout, a stop taking effect, a crash

  predicate Enabled(s: State, step: Step) {
    match step
    case BeginLoad(t, _, _) => t !in s.threads
    case BeginStop(t, _, _) => t !in s.threads
    case Go(t, _) =>
      && t in s.threads
      && !Finished(s.threads[t])
      && (Waits(s.threads[t]) ==> s.lock == None)
    case Status(id, _) => id < |s.made| && !BeingLaunched(s, id)
    case Die(id) => id in s.live
  }

  /** The backend has launched it and not yet handed it over: no session object exists for it. */
  predicate BeingLaunched(s: State, id: nat) {
    && s.lock.Some? && s.lock.value in s.threads
    && s.threads[s.lock.value].Load? && s.threads[s.lock.value].at == Launched(id)
  }

  predicate Finished(thread: Thread) {
    if thread.Load? then thread.at.LoadDone? else thread.stage.StopDone?
  }

  predicate Waits(thread: Thread) {
    if thread.Load? then thread.at.LoadWaits? else thread.stage.StopWaits?
  }

  /** A session found not running is never asked about again. */
  function MarkDead(s: State, id: nat): State {
    s.(knownDead := s.knownDead + {id}, astray := if id in s.live then s.astray + {id} else s.astray)
  }

  predicate LooksRunning(s: State, id: nat, answer: Answer) { id !in s.knownDead && answer != No }

  function Look(s: State, id: nat, answer: Answer): State {
    if id !in s.knownDead && answer == No then MarkDead(s, id) else s
  }

  /** After waiting for it, an instance is asked about whether or not the wait raised. */
  function Joined(s: State, id: nat, answer: Answer): State {
    Look(s, id, if answer.RaisesGone? then No else answer)
  }

  function LoadTo(s: State, t: nat, at: LoadAt): State
    requires t in s.threads && s.threads[t].Load?
  {
    s.(threads := s.threads[t := s.threads[t].(at := at)])
  }

  /** Leaving `load`, by return or by exception, releases the lock. */
  function LeaveLoad(s: State, t: nat, outcome: LoadOutcome): State
    requires t in s.threads && s.threads[t].Load?
  {
    LoadTo(s, t, LoadDone(outcome)).(lock := None)
  }

  function EnterLoad(s: State, t: nat): State
    requires t in s.threads && s.threads[t].Load?
  {
    var l := s.threads[t];
    var current := if l.email in s.registry then Some(s.registry[l.email]) else None;
    var at := if current.None? then Starting else FirstLook;
    s.(lock := Some(t), threads := s.threads[t := l.(current := current, at := at)])
  }

  function Launch(s: State, t: nat): State
    requires t in s.threads && s.threads[t].Load?
  {
    var l := s.threads[t];
    LoadTo(s, t, Launched(|s.made|)).(made := s.made + [Instance(l.email, l.subdirectory)], live := s.live + {|s.made|})
  }

  function Return(s: State, t: nat, id: nat): State
    requires t in s.threads && s.threads[t].Load?
  {
    LeaveLoad(s, t, Started(id)).(registry := s.registry[s.threads[t].email := id])
  }

  function Leak(s: State, t: nat, id: nat): State
    requires t in s.threads && s.threads[t].Load?
  {
    LeaveLoad(s, t, Failed).(astray := if id in s.live then s.astray + {id} else s.astray)
  }

  function LoadNext(s: State, t: nat, answer: Answer): State
    requires t in s.threads && s.threads[t].Load?
  {
    var l := s.threads[t];
    match l.at
    case LoadWaits => EnterLoad(s, t)
    case Starting => if answer == Yes then Launch(s, t) else LeaveLoad(s, t, Failed)
    case Launched(id) => if answer == Yes then Return(s, t, id) else Leak(s, t, id)
    case LoadDone(_) => s
    case _ => if l.current.None? then s else ReplaceNext(s, t, l.current.value, answer)
  }

  /** The part of `load` that gets a registered session out of the way. */
  function ReplaceNext(s: State, t: nat, id: nat, answer: Answer): State
    requires t in s.threads && s.threads[t].Load?
  {
    var l := s.threads[t];
    match l.at
    case FirstLook =>
      if !LooksRunning(s, id, answer) then LoadTo(Look(s, id, answer), t, Starting)
      else if id < |s.made| && s.made[id].subdirectory == l.subdirectory then LeaveLoad(s, t, AlreadyRunning(id))
      else LoadTo(s, t, AskToStop)
    case AskToStop =>
      if Raised(answer) then LeaveLoad(s, t, Failed) else LoadTo(Look(s, id, answer), t, Join)
    case Join =>
      if Raised(answer) then LeaveLoad(Joined(s, id, answer), t, Failed)
      else LoadTo(Joined(s, id, answer), t, SecondLook)
    case _ =>
      if LooksRunning(s, id, answer) then LeaveLoad(s, t, StillRunning(id))
      else LoadTo(Look(s, id, answer), t, Starting)
  }

  function StopTo(s: State, t: nat, stage: StopAt): State
    requires t in s.threads && s.threads[t].Stop?
  {
    s.(threads := s.threads[t := s.threads[t].(stage := stage)])
  }

  /** `stop` holds the lock only while it reads the registry. */
  function ReadRegistry(s: State, t: nat): State
    requires t in s.threads && s.threads[t].Stop?
  {
    var p := s.threads[t];
    if p.email !in s.registry then StopTo(s, t, StopDone(NoSession))
    else
      var id := s.registry[p.email];
      if id < |s.made| && s.made[id].subdirectory != p.subdirectory then StopTo(s, t, StopDone(OtherGame))
      else s.(threads := s.threads[t := p.(session := id, stage := StopLook)])
  }

  function StopNext(s: State, t: nat, answer: Answer): State
    requires t in s.threads && s.threads[t].Stop?
  {
    var p := s.threads[t];
    match p.stage
    case StopWaits => ReadRegistry(s, t)
    case StopLook =>
      StopTo(Look(s, p.session, answer), t,
             if LooksRunning(s, p.session, answer) then StopAsk else StopDone(AlreadyStopped))
    case StopAsk =>
      if Raised(answer) then StopTo(s, t, StopDone(StopRaised)) else StopTo(Look(s, p.session, answer), t, StopJoin)
    case StopJoin =>
      StopTo(Joined(s, p.session, answer), t, if Raised(answer) then StopDone(StopRaised) else StopSecondLook)
    case StopSecondLook =>
      StopTo(Look(s, p.session, answer), t,
             StopDone(if LooksRunning(s, p.session, answer) then NotInTime else Stopped))
    case StopDone(_) => s
  }

  function Next(s: State, step: Step): State
    requires Enabled(s, step)
  {
    match step
    case BeginLoad(t, email, sub) => s.(threads := s.threads[t := Load(email, sub, None, LoadWaits)])
    case BeginStop(t, email, sub) => s.(threads := s.threads[t := Stop(email, sub, 0, StopWaits)])
    case Go(t, answer) => if s.threads[t].Load? then LoadNext(s, t, answer) else StopNext(s, t, answer)
    case Status(id, answer) => if answer == Yes || id in s.knownDead then s else MarkDead(s, id)
    case Die(id) => s.(live := s.live - {id})
  }

  // ---------------------------------------------------------------------------------------------
  // What every interleaving keeps

  predicate Inside(at: LoadAt) { !at.LoadWaits? && !at.LoadDone? }

  predicate AboutToReplace(at: LoadAt) { at.Starting? || at.Launched? }

  /** Nobody but the thread inside `load` holds the lock over a step. */
  ghost predicate LockInv(s: State) {
    && (forall t :: t in s.threads && s.threads[t].Load? && Inside(s.threads[t].at) ==> s.lock == Some(t))
    && (s.lock.Some? ==> var t := s.lock.value; t in s.threads && s.threads[t].Load? && Inside(s.threads[t].at))
  }

  predicate RegistryInv(s: State) {
    && (forall e :: e in s.registry ==> s.registry[e] < |s.made| && s.made[s.registry[e]].email == e)
    && (forall id :: id in s.knownDead ==> id < |s.made|)
  }

  /** What the thread inside `load` knows about the registry entry it is to replace. */
  predicate LoadInv(s: State) {
    s.lock.Some? && s.lock.value in s.threads && s.threads[s.lock.value].Load? ==>
      var l := s.threads[s.lock.value];
      && (l.current.Some? <==> l.email in s.registry)
      && (l.current.Some? ==> l.current.value == s.registry[l.email])
      && (l.current.None? ==> AboutToReplace(l.at))
      && (AboutToReplace(l.at) && l.current.Some? ==> l.current.value in s.knownDead)
      && (l.at.Launched? ==>
            && l.at.id == |s.made| - 1 && s.made[l.at.id] == Instance(l.email, l.subdirectory)
            && l.at.id !in s.knownDead)
  }

  predicate Registered(s: State, id: nat)
    requires id < |s.made|
  {
    s.made[id].email in s.registry && s.registry[s.made[id].email] == id
  }

  predicate Accounted(s: State, id: nat) {
    id < |s.made| && (id in s.astray || Registered(s, id) || BeingLaunched(s, id))
  }

  ghost predicate LiveInv(s: State) {
    && (forall id :: id in s.live ==> Accounted(s, id))
    && (forall id :: id in s.live && id in s.knownDead ==> id in s.astray)
  }

  predicate StopOk(s: State, p: Thread)
    requires p.Stop?
  {
    && (SaysStopped(p.stage) ==> p.session in s.knownDead)
    && (HasSession(p.stage) ==> p.session < |s.made| && !BeingLaunched(s, p.session))
  }

  ghost predicate StopInv(s: State) {
    forall t :: t in s.threads && s.threads[t].Stop? ==> StopOk(s, s.threads[t])
  }

  predicate HasSession(stage: StopAt) {
    stage.StopLook? || stage.StopAsk? || stage.StopJoin? || stage.StopSecondLook?
  }

  predicate SaysStopped(stage: StopAt) {
    stage.StopDone? && (stage.reply.Stopped? || stage.reply.AlreadyStopped?)
  }

  ghost predicate Inv(s: State) {
    LockInv(s) && RegistryInv(s) && LoadInv(s) && LiveInv(s) && StopInv(s)
  }

  lemma {:induction false} MarkKeeps(s: State, id: nat)
    requires Inv(s) && id < |s.made| && !BeingLaunched(s, id)
    ensures Inv(MarkDead(s, id))
  {
  }

  lemma {:induction false} DieKeeps(s: State, id: nat)
    requires Inv(s)
    ensures Inv(s.(live := s.live - {id}))
  {
  }

  lemma {:induction false} BeginKeeps(s: State, t: nat, thread: Thread)
    requires Inv(s) && t !in s.threads && Waits(thread)
    ensures Inv(s.(threads := s.threads[t := thread]))
  {
  }

  lemma {:induction false} EnterKeeps(s: State, t: nat)
    requires Inv(s) && t in s.threads && s.threads[t].Load? && s.threads[t].at.LoadWaits? && s.lock == None
    ensures Inv(EnterLoad(s, t))
  {
  }

  lemma {:induction false} LaunchKeeps(s: State, t: nat)
    requires Inv(s) && t in s.threads && s.threads[t].Load? && s.threads[t].at.Starting?
    ensures Inv(Launch(s, t))
  {
  }

  lemma {:induction false} ReturnKeeps(s: State, t: nat, id: nat)
    requires Inv(s) && t in s.threads && s.threads[t].Load? && s.threads[t].at == Launched(id)
    ensures Inv(Return(s, t, id))
  {
  }

  lemma {:induction false} LeakKeeps(s: State, t: nat, id: nat)
    requires Inv(s) && t in s.threads && s.threads[t].Load? && s.threads[t].at == Launched(id)
    ensures Inv(Leak(s, t, id))
  {
  }

  lemma {:induction false} LeaveKeeps(s: State, t: nat, outcome: LoadOutcome)
    requires Inv(s) && t in s.threads && s.threads[t].Load? && Inside(s.threads[t].at) && !s.threads[t].at.Launched?
    ensures Inv(LeaveLoad(s, t, outcome))
  {
  }

  lemma {:induction false} MoveKeeps(s: State, t: nat, at: LoadAt)
    requires Inv(s) && t in s.threads && s.threads[t].Load? && Inside(s.threads[t].at) && !s.threads[t].at.Launched?
    requires Inside(at) && !at.Launched? && s.threads[t].current.Some?
    requires at.Starting? ==> s.threads[t].current.value in s.knownDead
    ensures Inv(LoadTo(s, t, at))
  {
  }

  lemma {:induction false} StopKeeps(s: State, t: nat, thread: Thread)
    requires Inv(s) && t in s.threads && s.threads[t].Stop? && thread.Stop?
    requires StopOk(s, thread)
    ensures Inv(s.(threads := s.threads[t := thread]))
  {
  }

  lemma {:induction false} LookKeeps(s: State, id: nat, answer: Answer)
    requires Inv(s) && id < |s.made| && !BeingLaunched(s, id)
    ensures Inv(Look(s, id, answer))
  {
    MarkKeeps(s, id);
  }

  lemma {:induction false} ReplaceKeeps(s: State, t: nat, answer: Answer)
    requires Inv(s) && t in s.threads && s.threads[t].Load? && s.threads[t].current.Some?
    requires Inside(s.threads[t].at) && !AboutToReplace(s.threads[t].at)
    ensures Inv(ReplaceNext(s, t, s.threads[t].current.value, answer))
  {
    var id := s.threads[t].current.value;
    LookKeeps(s, id, if s.threads[t].at.Join? && answer.RaisesGone? then No else answer);
    var looked, joined := Look(s, id, answer), Joined(s, id, answer);
    match s.threads[t].at
    case FirstLook =>
      if LooksRunning(s, id, answer) {
        LeaveKeeps(s, t, AlreadyRunning(id));
        MoveKeeps(s, t, AskToStop);
      } else {
        MoveKeeps(looked, t, Starting);
      }
    case AskToStop =>
      LeaveKeeps(s, t, Failed);
      MoveKeeps(looked, t, Join);
    case Join =>
      LeaveKeeps(joined, t, Failed);
      MoveKeeps(joined, t, SecondLook);
    case SecondLook =>
      if LooksRunning(s, id, answer) {
        LeaveKeeps(s, t, StillRunning(id));
      } else {
        MoveKeeps(looked, t, Starting);
      }
    case _ =>
  }

  lemma {:induction false} LoadKeeps(s: State, t: nat, answer: Answer)
    requires Inv(s) && Enabled(s, Go(t, answer)) && s.threads[t].Load?
    ensures Inv(LoadNext(s, t, answer))
  {
    match s.threads[t].at
    case LoadWaits => EnterKeeps(s, t);
    case Starting => LaunchKeeps(s, t); LeaveKeeps(s, t, Failed);
    case Launched(id) => ReturnKeeps(s, t, id); LeakKeeps(s, t, id);
    case _ => ReplaceKeeps(s, t, answer);
  }

  lemma {:induction false} StopReadKeeps(s: State, t: nat)
    requires Inv(s) && t in s.threads && s.threads[t].Stop? && s.lock == None
    ensures Inv(ReadRegistry(s, t))
  {
    var p := s.threads[t];
    StopKeeps(s, t, p.(stage := StopDone(NoSession)));
    StopKeeps(s, t, p.(stage := StopDone(OtherGame)));
    if p.email in s.registry {
      StopKeeps(s, t, p.(session := s.registry[p.email], stage := StopLook));
    }
  }

  /** The thread of a stop moves on, once the session has been looked at. */
  lemma {:induction false} StopMoves(s: State, t: nat, stage: StopAt)
    requires Inv(s) && t in s.threads && s.threads[t].Stop? && HasSession(s.threads[t].stage)
    requires SaysStopped(stage) ==> s.threads[t].session in s.knownDead
    ensures Inv(StopTo(s, t, stage))
  {
    StopKeeps(s, t, s.threads[t].(stage := stage));
  }

  lemma {:induction false} StopStepKeeps(s: State, t: nat, answer: Answer)
    requires Inv(s) && Enabled(s, Go(t, answer)) && s.threads[t].Stop?
    ensures Inv(StopNext(s, t, answer))
  {
    var p := s.threads[t];
    if p.stage.StopWaits? {
      StopReadKeeps(s, t);
    } else {
      assert StopOk(s, p);
      LookKeeps(s, p.session, if p.stage.StopJoin? && answer.RaisesGone? then No else answer);
      match p.stage
      case StopLook =>
        StopMoves(Look(s, p.session, answer), t,
                  if LooksRunning(s, p.session, answer) then StopAsk else StopDone(AlreadyStopped));
      case StopAsk =>
        StopMoves(s, t, StopDone(StopRaised));
        StopMoves(Look(s, p.session, answer), t, StopJoin);
      case StopJoin =>
        StopMoves(Joined(s, p.session, answer), t, if Raised(answer) then StopDone(StopRaised) else StopSecondLook);
      case StopSecondLook =>
        StopMoves(Look(s, p.session, answer), t,
                  StopDone(if LooksRunning(s, p.session, answer) then NotInTime else Stopped));
    }
  }

  lemma {:induction false} StepKeeps(s: State, step: Step)
    requires Inv(s) && Enabled(s, step)
    ensures Inv(Next(s, step))
  {
    match step
    case BeginLoad(t, email, sub) => BeginKeeps(s, t, Load(email, sub, None, LoadWaits));
    case BeginStop(t, email, sub) => BeginKeeps(s, t, Stop(email, sub, 0, StopWaits));
    case Go(t, answer) =>
      if s.threads[t].Load? { LoadKeeps(s, t, answer); } else { StopStepKeeps(s, t, answer); }
    case Status(id, _) => MarkKeeps(s, id);
    case Die(id) => DieKeeps(s, id);
  }

  // ---------------------------------------------------------------------------------------------
  // Whole runs

  predicate Follows(s: State, step: Step, t: State) { Enabled(s, step) && t == Next(s, step) }

  predicate IsRun(states: seq<State>, steps: seq<Step>) {
    && |states| == |steps| + 1 && states[0] == Init()
    && forall i :: 0 <= i < |steps| ==> Follows(states[i], steps[i], states[i + 1])
  }

  lemma {:induction false} RunInv(states: seq<State>, steps: seq<Step>, i: nat)
    requires IsRun(states, steps) && i < |states|
    ensures Inv(states[i])
    decreases i
  {
    if i > 0 {
      RunInv(states, steps, i - 1);
      assert Follows(states[i - 1], steps[i - 1], states[i - 1 + 1]);
      StepKeeps(states[i - 1], steps[i - 1]);
    }
  }

  /** In every reachable state, whatever the threads and the backend do, a live instance is the one its
      email is registered to, or the one the lock holder is launching, or went astray. */
  lemma {:induction false} EveryInstanceAccounted(states: seq<State>, steps: seq<Step>, i: nat, id: nat)
    requires IsRun(states, steps) && i < |states| && id in states[i].live
    ensures Accounted(states[i], id)
  {
    RunInv(states, steps, i);
  }

  /** One live instance per email, apart from those that went astray. */
  lemma {:induction false} OneLiveInstancePerEmail(states: seq<State>, steps: seq<Step>, i: nat, a: nat, b: nat)
    requires IsRun(states, steps) && i < |states|
    requires var s := states[i];
             a in s.live && b in s.live && a !in s.astray && b !in s.astray && a < |s.made| && b < |s.made|
             && s.made[a].email == s.made[b].email
    ensures a == b
  {
    RunInv(states, steps, i);
    var s := states[i];
    assert Accounted(s, a) && Accounted(s, b);
  }

  predicate SaysGone(joining: bool, answer: Answer) { answer.No? || (joining && answer.RaisesGone?) }

  /** The backend lies about, or leaks, a live instance. */
  predicate Misleads(s: State, step: Step) {
    match step
    case Status(id, answer) => answer != Yes && id !in s.knownDead && id in s.live
    case Go(t, answer) =>
      t in s.threads && (
        if s.threads[t].Stop? then
          HasSession(s.threads[t].stage) && SaysGone(s.threads[t].stage.StopJoin?, answer)
              && s.threads[t].session in s.live
        else if s.threads[t].at.Launched? then answer != Yes && s.threads[t].at.id in s.live
        else (s.threads[t].current.Some? && !s.threads[t].at.Starting?
              && SaysGone(s.threads[t].at.Join?, answer) && s.threads[t].current.value in s.live))
    case _ => false
  }

  /** An instance goes astray only where the backend misleads. */
  lemma {:induction false} AstrayOnlyIfMisled(s: State, step: Step, t: State)
    requires Inv(s) && Follows(s, step, t) && !Misleads(s, step)
    ensures t.astray == s.astray
  {
  }

  ghost predicate Truthful(states: seq<State>, steps: seq<Step>)
    requires |states| == |steps| + 1
  {
    forall k :: 0 <= k < |steps| ==> !Misleads(states[k], steps[k])
  }

  lemma {:induction false} TruthfulStep(states: seq<State>, steps: seq<Step>, i: nat)
    requires IsRun(states, steps) && Truthful(states, steps) && i < |steps| && Inv(states[i])
    ensures states[i + 1].astray == states[i].astray
  {
    assert Follows(states[i], steps[i], states[i + 1]) && !Misleads(states[i], steps[i]);
    AstrayOnlyIfMisled(states[i], steps[i], states[i + 1]);
  }

  /** With a backend that never misleads there is one live instance per email in every reachable state. */
  lemma {:induction false} TruthfulBackend(states: seq<State>, steps: seq<Step>, i: nat)
    requires IsRun(states, steps) && Truthful(states, steps) && i < |states|
    ensures states[i].astray == {}
    decreases i
  {
    if i > 0 {
      TruthfulBackend(states, steps, i - 1);
      RunInv(states, steps, i - 1);
      TruthfulStep(states, steps, i - 1);
    }
  }

  /** A stop that answers "stopped" names an instance that is dead, then and for ever after, unless it
      went astray. */
  lemma {:induction false} StoppedIsDead(states: seq<State>, steps: seq<Step>, i: nat, t: nat)
    requires IsRun(states, steps) && i < |states|
    requires t in states[i].threads && states[i].threads[t].Stop? && SaysStopped(states[i].threads[t].stage)
    ensures var id := states[i].threads[t].session; id in states[i].live ==> id in states[i].astray
  {
    RunInv(states, steps, i);
  }

  lemma {:induction false} Extend(states: seq<State>, steps: seq<Step>, step: Step, t: State)
    requires IsRun(states, steps) && Follows(states[|states| - 1], step, t)
    ensures IsRun(states + [t], steps + [step])
  {
    var longer, more := states + [t], steps + [step];
    forall i | 0 <= i < |more| ensures Follows(longer[i], more[i], longer[i + 1]) {
      assert i < |steps| ==> Follows(states[i], steps[i], states[i + 1]);
    }
  }

  /** A load that finds the lock free and a registered session known dead, or none, can start another. */
  lemma {:induction false} LoadStarts(states: seq<State>, steps: seq<Step>, t: nat, email: string, subdirectory: string)
    returns (later: seq<State>, more: seq<Step>)
    requires IsRun(states, steps)
    requires var s := states[|states| - 1];
             s.lock == None && t !in s.threads && (email in s.registry ==> s.registry[email] in s.knownDead)
    ensures IsRun(later, more) && states <= later
    ensures var s, u := states[|states| - 1], later[|later| - 1];
            u.made == s.made + [Instance(email, subdirectory)] && u.live == s.live + {|s.made|} && u.astray == s.astray
            && u.registry == s.registry[email := |s.made|]
  {
    var s, go := states[|states| - 1], Go(t, Yes);
    var a := s.(threads := s.threads[t := Load(email, subdirectory, None, LoadWaits)]);
    var b := EnterLoad(a, t);
    Extend(states, steps, BeginLoad(t, email, subdirectory), a);
    later, more := states + [a], steps + [BeginLoad(t, email, subdirectory)];
    Extend(later, more, go, b);
    later, more := later + [b], more + [go];
    if email in s.registry {
      var c := LoadTo(b, t, Starting);
      Extend(later, more, go, c);
      later, more := later + [c], more + [go];
      b := c;
    }
    var d := Launch(b, t);
    Extend(later, more, go, d);
    later, more := later + [d], more + [go];
    Extend(later, more, go, Return(d, t, |s.made|));
    later, more := later + [Return(d, t, |s.made|)], more + [go];
  }

  /** Two live instances of one email, the older of them out of reach of every later stop. */
  predicate TwoLive(s: State, id: nat) {
    && id < |s.made| - 1 && id in s.live && |s.made| - 1 in s.live
    && s.made[id].email == s.made[|s.made| - 1].email && s.made[id].subdirectory != s.made[|s.made| - 1].subdirectory
    && id in s.astray && !Registered(s, id)
  }

  /** From every reachable state where a launch has succeeded but its start then raises (in process, a
      thread not ready in time; with Docker, a create that is given up on), the same email can get a
      second live instance for another game, and stopping can no longer reach the first. */
  lemma {:induction false} LeakedLaunch(states: seq<State>, steps: seq<Step>, t: nat, id: nat, other: nat,
                                        subdirectory: string)
    returns (later: seq<State>, more: seq<Step>)
    requires IsRun(states, steps)
    requires var s := states[|states| - 1];
             && t in s.threads && s.threads[t].Load? && s.threads[t].at == Launched(id) && id in s.live
             && other !in s.threads && subdirectory != s.threads[t].subdirectory
    ensures IsRun(later, more) && states <= later && TwoLive(later[|later| - 1], id)
  {
    var s := states[|states| - 1];
    RunInv(states, steps, |states| - 1);
    var leaked := Leak(s, t, id);
    Extend(states, steps, Go(t, Raises), leaked);
    var between, along := states + [leaked], steps + [Go(t, Raises)];
    var l := s.threads[t];
    later, more := LoadStarts(between, along, other, l.email, subdirectory);
    RunInv(between, along, |between| - 1);
    RunInv(later, more, |later| - 1);
  }

  /** What the backend answers for the load that holds the lock to give up soon, misleading about no
      registered instance. */
  function GivesUp(at: LoadAt): Answer {
    match at
    case FirstLook => Yes
    case SecondLook => Yes
    case Starting => No
    case _ => Raises
  }

  function StepsToGiveUp(at: LoadAt): nat { if at.FirstLook? || at.SecondLook? then 1 else 0 }

  /** Nothing but the thread that gives up and what it leaks. */
  ghost predicate Undisturbed(s: State, u: State) {
    && u.registry == s.registry && u.made == s.made && u.live == s.live && u.knownDead == s.knownDead
    && u.threads.Keys == s.threads.Keys
  }

  lemma {:induction false} HolderMoves(s: State, t: nat)
    requires Inv(s) && s.lock == Some(t)
    ensures t in s.threads && s.threads[t].Load? && Enabled(s, Go(t, GivesUp(s.threads[t].at)))
    ensures var u := Next(s, Go(t, GivesUp(s.threads[t].at)));
            && Undisturbed(s, u)
            && (u.lock == None
                || (u.lock == Some(t) && StepsToGiveUp(u.threads[t].at) < StepsToGiveUp(s.threads[t].at)))
  {
  }

  /** The load that holds the lock can always give up. */
  lemma {:induction false} LockLeaves(states: seq<State>, steps: seq<Step>)
    returns (later: seq<State>, more: seq<Step>)
    requires IsRun(states, steps)
    ensures IsRun(later, more) && states <= later && later[|later| - 1].lock == None
    ensures Undisturbed(states[|states| - 1], later[|later| - 1])
    decreases var s := states[|states| - 1];
              if s.lock.Some? && s.lock.value in s.threads && s.threads[s.lock.value].Load?
              then 1 + StepsToGiveUp(s.threads[s.lock.value].at) else 0
  {
    var s := states[|states| - 1];
    if s.lock == None {
      return states, steps;
    }
    RunInv(states, steps, |states| - 1);
    var t := s.lock.value;
    HolderMoves(s, t);
    var go := Go(t, GivesUp(s.threads[t].at));
    Extend(states, steps, go, Next(s, go));
    later, more := LockLeaves(states + [Next(s, go)], steps + [go]);
  }

  /** From every reachable state where a registered instance runs, one status call that finds the instance
      not running, while it is and stays so, lets a load for another game start a second one. */
  lemma {:induction false} MisjudgedInstance(states: seq<State>, steps: seq<Step>, email: string, other: nat,
                                             subdirectory: string)
    returns (later: seq<State>, more: seq<Step>)
    requires IsRun(states, steps)
    requires var s := states[|states| - 1];
             && other !in s.threads && email in s.registry && s.registry[email] < |s.made|
             && s.registry[email] in s.live && subdirectory != s.made[s.registry[email]].subdirectory
    ensures IsRun(later, more) && states <= later
    ensures TwoLive(later[|later| - 1], states[|states| - 1].registry[email])
  {
    var id := states[|states| - 1].registry[email];
    var between, along := LockLeaves(states, steps);
    var s := between[|between| - 1];
    RunInv(between, along, |between| - 1);
    var judged := Next(s, Status(id, No));
    assert id in judged.live && id in judged.knownDead && judged.registry == s.registry;
    Extend(between, along, Status(id, No), judged);
    later, more := LoadStarts(between + [judged], along + [Status(id, No)], other, email, subdirectory);
    RunInv(later, more, |later| - 1);
  }
}
