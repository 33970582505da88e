/**
 fifo_one_queue: one global FIFO shared by all cores, and a local queue per core that only
 fifo_newly_idle fills.  Cores interleave at the granularity of lock and unlock; `Pc` says
 how far each core is in its handler, and one step is what a core does from one lock
 operation to the next.
 */
module OneQueue {
  import opened Queues
  import opened Framework
  import opened Ledgers

  datatype Pc =
    | Rest
    // fifo_newly_idle
    | PullLock | PullLook
    | PullLocalLock(t: Tid) | PullLocalMove(t: Tid)
    | PullRemoteLock(t: Tid, from: nat) | PullRemoteMove(t: Tid, from: nat)
    | PullHomeLock(t: Tid) | PullHomeMove(t: Tid)
    | PullUnlock
    // fifo_schedule
    | PickLock | PickLocal | PickGlobalLock | PickGlobal
    // select_cpu, then fifo_enqueue_lock
    | SelectLock(t: Tid, target: nat) | Select(t: Tid, target: nat)
    | PutLock(t: Tid) | Put(t: Tid)
    // fifo_block, fifo_terminate
    | DropLock(t: Tid, to: Place) | Drop(t: Tid, to: Place)

  datatype State = State(fw: Fw, rqLock: Option<nat>, coreLock: seq<Option<nat>>, pc: seq<Pc>, log: Ledger)

  datatype Event =
    | NewlyIdle(c: nat)
    | Schedule(c: nat)
    | New(c: nat, t: Tid, cpu: nat, exec: bool, target: nat)   // new_prepare and new_place, run by core c
    | Unblock(c: nat, t: Tid, target: nat)                     // unblock_prepare and unblock_place
    | Requeue(c: nat)                                          // tick at the end of the quantum, or yield
    | DropCurrent(c: nat, to: Place)                           // block or terminate of the running task
    // of a task in the global queue, or terminate of a blocked one
    | DropOther(c: nat, t: Tid, to: Place)
    | Advance(c: nat)                                          // core c goes on with its handler

  // ---------------------------------------------------------------- locks

  predicate HoldsRq(pc: Pc) {
    match pc
    case PullLook => true
    case PullLocalLock(_) => true
    case PullLocalMove(_) => true
    case PullRemoteLock(_, _) => true
    case PullRemoteMove(_, _) => true
    case PullHomeLock(_) => true
    case PullHomeMove(_) => true
    case PullUnlock => true
    case PickGlobal => true
    case Select(_, _) => true
    case Put(_) => true
    case Drop(_, _) => true
    case _ => false
  }

  predicate WaitsRq(pc: Pc) {
    pc.PullLock? || pc.PickGlobalLock? || pc.SelectLock? || pc.PutLock? || pc.DropLock?
  }

  /** The core lock that core `c` holds at `pc`. */
  function HeldCore(pc: Pc, c: nat): Option<nat> {
    match pc
    case PullLocalMove(_) => Some(c)
    case PullRemoteMove(_, d) => Some(d)
    case PullHomeMove(_) => Some(c)
    case PickLocal => Some(c)
    case _ => None
  }

  /** The core lock that core `c` wants at `pc`. */
  function WantedCore(pc: Pc, c: nat): Option<nat> {
    match pc
    case PullLocalLock(_) => Some(c)
    case PullRemoteLock(_, d) => Some(d)
    case PullHomeLock(_) => Some(c)
    case PickLock => Some(c)
    case _ => None
  }

  /** Core `c` is inside a handler and its next lock, if it needs one, is free. */
  predicate CanAdvance(s: State, c: nat) {
    && c < |s.pc| && s.pc[c] != Rest
    && (WaitsRq(s.pc[c]) ==> s.rqLock == None)
    && (WantedCore(s.pc[c], c).Some? ==>
          WantedCore(s.pc[c], c).value < |s.coreLock| && s.coreLock[WantedCore(s.pc[c], c).value] == None)
  }

  function TakeRq(s: State, c: nat, next: Pc): State
    requires c < |s.pc|
  {
    s.(rqLock := Some(c), pc := s.pc[c := next])
  }

  function DropRq(s: State, c: nat, next: Pc): State
    requires c < |s.pc|
  {
    s.(rqLock := None, pc := s.pc[c := next])
  }

  function TakeCore(s: State, c: nat, d: nat, next: Pc): State
    requires c < |s.pc|
  {
    s.(coreLock := if d < |s.coreLock| then s.coreLock[d := Some(c)] else s.coreLock, pc := s.pc[c := next])
  }

  function DropCore(s: State, c: nat, d: nat, next: Pc): State
    requires c < |s.pc|
  {
    s.(coreLock := if d < |s.coreLock| then s.coreLock[d := None] else s.coreLock, pc := s.pc[c := next])
  }

  function Goto(s: State, c: nat, next: Pc): State
    requires c < |s.pc|
  {
    s.(pc := s.pc[c := next])
  }

  function Move(s: State, t: Tid, to: Place): State {
    s.(fw := ChangeState(s.fw, t, to))
  }

  // ---------------------------------------------------------------- steps

  function Next(s: State, c: nat): State
    requires c < |s.pc|
  {
    match s.pc[c]
    case Rest => s
    case PullLock => TakeRq(s, c, PullLook)
    case PullLook =>
      if s.fw.shared == [] then Goto(s, c, PullUnlock)
      else if CpuOf(s.fw, s.fw.shared[0]) == c then Goto(s, c, PullLocalLock(s.fw.shared[0]))
      else Goto(s, c, PullRemoteLock(s.fw.shared[0], CpuOf(s.fw, s.fw.shared[0])))
    case PullLocalLock(t) => TakeCore(s, c, c, PullLocalMove(t))
    case PullLocalMove(t) => DropCore(Move(s, t, Ready(Own(c))).(log := Leave(s.log)), c, c, PullUnlock)
    case PullRemoteLock(t, d) => TakeCore(s, c, d, PullRemoteMove(t, d))
    case PullRemoteMove(t, d) => DropCore(Move(s, t, Migrating(c)).(log := Leave(s.log)), c, d, PullHomeLock(t))
    case PullHomeLock(t) => TakeCore(s, c, c, PullHomeMove(t))
    case PullHomeMove(t) => DropCore(Move(s, t, Ready(Own(c))), c, c, PullUnlock)
    case PullUnlock => DropRq(s, c, Rest)
    case PickLock => TakeCore(s, c, c, PickLocal)
    case PickLocal =>
      if c < |s.fw.own| && s.fw.own[c] != [] then DropCore(Move(s, s.fw.own[c][0], Running(c)), c, c, Rest)
      else DropCore(s, c, c, PickGlobalLock)
    case PickGlobalLock => TakeRq(s, c, PickGlobal)
    case PickGlobal =>
      if s.fw.shared != [] && CpuOf(s.fw, s.fw.shared[0]) == c
      then DropRq(Move(s, s.fw.shared[0], Running(c)).(log := Leave(s.log)), c, Rest)
      else DropRq(s, c, Rest)
    case SelectLock(t, target) => TakeRq(s, c, Select(t, target))
    case Select(t, target) => DropRq(s.(fw := s.fw.(cpu := s.fw.cpu[t := target])), c, PutLock(t))
    case PutLock(t) => TakeRq(s, c, Put(t))
    case Put(t) => DropRq(Move(s, t, Ready(Shared)).(log := Arrive(s.log, t)), c, Rest)
    case DropLock(t, to) => TakeRq(s, c, Drop(t, to))
    case Drop(t, to) =>
      var log := if t in s.fw.shared then Withdraw(s.log, IndexOf(s.fw.shared, t)) else s.log;
      DropRq(Move(s, t, to).(log := log), c, Rest)
  }

  /** The task a handler is about. */
  function Subject(pc: Pc): Option<Tid> {
    match pc
    case PullLocalLock(t) => Some(t)
    case PullLocalMove(t) => Some(t)
    case PullRemoteLock(t, _) => Some(t)
    case PullRemoteMove(t, _) => Some(t)
    case PullHomeLock(t) => Some(t)
    case PullHomeMove(t) => Some(t)
    case SelectLock(t, _) => Some(t)
    case Select(t, _) => Some(t)
    case PutLock(t) => Some(t)
    case Put(t) => Some(t)
    case DropLock(t, _) => Some(t)
    case Drop(t, _) => Some(t)
    case _ => None
  }

  /** No handler is at work on the task. */
  predicate Free(s: State, t: Tid) {
    forall pc <- s.pc :: Subject(pc) != Some(t)
  }

  /** When the framework calls the module. */
  predicate Enabled(s: State, e: Event) {
    && e.c < |s.pc| == |s.fw.own| == |s.fw.current|
    && (!e.Advance? ==> s.pc[e.c] == Rest)
    && match e
       case NewlyIdle(c) => s.fw.current[c] == None
       case Schedule(c) => s.fw.current[c] == None
       case New(c, t, cpu, _, target) => Unused(s.fw, t) && cpu < |s.pc| && target < |s.pc|
       case Unblock(c, t, target) =>
         t in s.fw.place && s.fw.place[t] == Blocked && Free(s, t) && target < |s.pc|
       case Requeue(c) => s.fw.current[c].Some?
       case DropCurrent(c, to) => s.fw.current[c].Some? && to in {Blocked, Terminated}
       case DropOther(c, t, to) =>
         && s.rqLock == None && t in s.fw.place && Free(s, t)
         && ((s.fw.place[t] == Ready(Shared) && to in {Blocked, Terminated}) ||
             (s.fw.place[t] == Blocked && to == Terminated))
       case Advance(c) => CanAdvance(s, c)
  }

  function Step(s: State, e: Event): State
    requires Enabled(s, e)
  {
    match e
    case NewlyIdle(c) => Goto(s, c, PullLock)
    case Schedule(c) => Goto(s, c, PickLock)
    case New(c, t, cpu, exec, target) =>
      Goto(s.(fw := Create(s.fw, t, cpu)), c, if exec then PutLock(t) else SelectLock(t, target))
    case Unblock(c, t, target) => Goto(Move(s, t, NotQueued), c, SelectLock(t, target))
    case Requeue(c) => Goto(s, c, PutLock(s.fw.current[c].value))
    case DropCurrent(c, to) => Goto(s, c, DropLock(s.fw.current[c].value, to))
    case DropOther(c, t, to) => TakeRq(s, c, Drop(t, to))
    case Advance(c) => Next(s, c)
  }

  /** All cores at rest, no task, all locks free. */
  function Boot(n: nat): State {
    State(Fw(map[], map[], [], seq(n, _ => []), seq(n, _ => None)), None, seq(n, _ => None), seq(n, _ => Rest), EMPTY)
  }

  // ---------------------------------------------------------------- invariant

  ghost predicate LocksOk(s: State) {
    && |s.pc| == |s.coreLock|
    && (s.rqLock.Some? ==> s.rqLock.value < |s.pc|)
    && (forall c: nat :: c < |s.pc| ==> (s.rqLock == Some(c) <==> HoldsRq(s.pc[c])))
    && (forall d: nat :: d < |s.pc| ==> s.coreLock[d].Some? ==> s.coreLock[d].value < |s.pc|)
    && (forall c: nat, d: nat :: c < |s.pc| && d < |s.pc| ==>
        (s.coreLock[d] == Some(c) <==> HeldCore(s.pc[c], c) == Some(d)))
  }

  /** What core `c` may rely on at `pc`. */
  ghost predicate PcOk(f: Fw, c: nat, pc: Pc)
    requires c < |f.current|
  {
    match pc
    case PullLocalLock(t) => HeadIs(f, t) && f.cpu[t] == c
    case PullLocalMove(t) => HeadIs(f, t) && f.cpu[t] == c
    case PullRemoteLock(t, d) => HeadIs(f, t) && f.cpu[t] == d != c && d < |f.own|
    case PullRemoteMove(t, d) => HeadIs(f, t) && f.cpu[t] == d != c && d < |f.own|
    case PullHomeLock(t) => t in f.place && f.place[t] == Migrating(c)
    case PullHomeMove(t) => t in f.place && f.place[t] == Migrating(c)
    case PickLock => f.current[c] == None
    case PickLocal => f.current[c] == None
    case PickGlobalLock => f.current[c] == None
    case PickGlobal => f.current[c] == None
    case SelectLock(t, target) => t in f.place && f.place[t] == NotQueued && target < |f.own|
    case Select(t, target) => t in f.place && f.place[t] == NotQueued && target < |f.own|
    case PutLock(t) => t in f.place && f.place[t] in {NotQueued, Running(c)}
    case Put(t) => t in f.place && f.place[t] in {NotQueued, Running(c)}
    case DropLock(t, to) => t in f.place && f.place[t] == Running(c) && to in {Blocked, Terminated}
    case Drop(t, to) => t in f.place && f.place[t] in {Running(c), Ready(Shared), Blocked}
                        && to in {Blocked, Terminated}
    case _ => true
  }

  ghost predicate HeadIs(f: Fw, t: Tid) {
    f.shared != [] && f.shared[0] == t && t in f.place && f.place[t] == Ready(Shared) && t in f.cpu
  }

  ghost predicate LooksAtHead(pc: Pc) {
    pc.PullLocalLock? || pc.PullLocalMove? || pc.PullRemoteLock? || pc.PullRemoteMove?
  }

  ghost predicate Transit(pc: Pc, t: Tid) {
    pc == PullHomeLock(t) || pc == PullHomeMove(t)
  }

  /** Tasks belong to the core that has them, and a migrating one is in the hands of its new core. */
  ghost predicate TaskOk(f: Fw, pcs: seq<Pc>, t: Tid)
    requires t in f.place
  {
    && t in f.cpu && f.cpu[t] < |f.own|
    && match f.place[t]
       case Ready(Own(c)) => f.cpu[t] == c
       case Running(c) => f.cpu[t] == c
       case Migrating(c) => f.cpu[t] == c && c < |pcs| && Transit(pcs[c], t)
       case Held(_) => false
       case _ => true
  }

  ghost predicate TasksOk(f: Fw, pcs: seq<Pc>) {
    forall t <- f.place :: TaskOk(f, pcs, t)
  }

  ghost predicate Alone(pcs: seq<Pc>) {
    forall c, d :: 0 <= c < d < |pcs| && Subject(pcs[c]).Some? ==> Subject(pcs[c]) != Subject(pcs[d])
  }

  ghost predicate Inv(s: State) {
    && |s.pc| == |s.fw.own|
    && Wf(s.fw)
    && LocksOk(s)
    && (forall c :: 0 <= c < |s.pc| ==> PcOk(s.fw, c, s.pc[c]))
    && TasksOk(s.fw, s.pc)
    && Alone(s.pc)
    && Lawful(s.log, s.fw.shared)
  }
}
