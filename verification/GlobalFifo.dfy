/**
 global_fifo: one global FIFO and a local queue per core.  A core that pulls takes the head
 off the global queue under the global lock, then moves it with no global lock held, taking
 the two core locks in increasing order.  Cores interleave at lock and unlock.
 */
module GlobalFifo {
  import opened Queues
  import opened Framework
  import opened Ledgers

  datatype Pc =
    | Rest
    // fifo_newly_idle, also called by fifo_load_balance
    | PullLock | PullTake | PullLocal(t: Tid)
    | PullLow(t: Tid, from: nat) | PullHigh(t: Tid, from: nat)
    | PullMigrate(t: Tid, from: nat) | PullReady(t: Tid, from: nat) | PullUnlock
    // fifo_schedule
    | PickLocal | PickGlobalLock | PickGlobal
    // fifo_new_place, fifo_unblock_place, fifo_yield, fifo_tick
    | PutLock(t: Tid) | Put(t: Tid)
    | Tick(t: Tid)
    // fifo_block, fifo_terminate
    | BlockLock(t: Tid) | Block(t: Tid)
    | End(t: Tid)

  datatype State = State(fw: Fw, rqLock: Option<nat>, coreLock: seq<Option<nat>>, pc: seq<Pc>, log: Ledger)

  datatype Event =
    | NewlyIdle(c: nat)                  // about to idle, or balancing while it runs a task
    | Schedule(c: nat)
    | New(c: nat, t: Tid, cpu: nat)
    | Unblock(c: nat, t: Tid)
    | Yield(c: nat)
    | QuantumEnd(c: nat)
    | BlockCurrent(c: nat)
    | TerminateCurrent(c: nat)
    | BlockQueued(c: nat, t: Tid)
    | TerminateBlocked(c: nat, t: Tid)
    | TerminateQueued(c: nat, t: Tid)    // of a task in the global queue: the handler takes no lock
    | Advance(c: nat)

  // ---------------------------------------------------------------- locks

  predicate HoldsRq(pc: Pc) {
    pc.PullTake? || pc.PickGlobal? || pc.Put? || pc.Block?
  }

  predicate WaitsRq(pc: Pc) {
    pc.PullLock? || pc.PickGlobalLock? || pc.PutLock? || pc.BlockLock?
  }

  function Min(a: nat, b: nat): nat {
    if a < b then a else b
  }

  function Max(a: nat, b: nat): nat {
    if a < b then b else a
  }

  predicate HoldsCore(pc: Pc, c: nat, d: nat) {
    match pc
    case PullHigh(_, f) => d == Min(c, f)
    case PullMigrate(_, f) => d == c || d == f
    case PullReady(_, f) => d == c || d == f
    case PullUnlock => d == c
    case _ => false
  }

  function WantedCore(pc: Pc, c: nat): Option<nat> {
    match pc
    case PullLow(_, f) => Some(Min(c, f))
    case PullHigh(_, f) => Some(Max(c, f))
    case _ => None
  }

  predicate CanAdvance(s: State, c: nat) {
    && c < |s.pc| && s.pc[c] != Rest
    && (WaitsRq(s.pc[c]) ==> s.rqLock == None)
    && (WantedCore(s.pc[c], c).Some? ==>
          WantedCore(s.pc[c], c).value < |s.coreLock| && s.coreLock[WantedCore(s.pc[c], c).value] == None)
  }

  function Goto(s: State, c: nat, next: Pc): State
    requires c < |s.pc|
  {
    s.(pc := s.pc[c := next])
  }

  function TakeRq(s: State, c: nat, next: Pc): State
    requires c < |s.pc|
  {
    s.(rqLock := Some(c), pc := s.pc[c := next])
  }

  function DropRq(s: State, c: nat, next: Pc): State
    requires c < |s.pc|
  {
    s.(rqLock := None, pc := s.pc[c := next])
  }

  function SetCore(s: State, c: nat, d: nat, holder: Option<nat>, next: Pc): State
    requires c < |s.pc|
  {
    s.(coreLock := if d < |s.coreLock| then s.coreLock[d := holder] else s.coreLock, pc := s.pc[c := next])
  }

  function Move(s: State, t: Tid, to: Place): State {
    s.(fw := ChangeState(s.fw, t, to))
  }

  // ---------------------------------------------------------------- steps

  function Next(s: State, c: nat): State
    requires c < |s.pc|
  {
    match s.pc[c]
    case Rest => s
    case PullLock => TakeRq(s, c, PullTake)
    case PullTake =>
      if s.fw.shared == [] then DropRq(s, c, Rest)
      else
        var t := s.fw.shared[0];
        DropRq(Move(s, t, Held(c)).(log := Leave(s.log)), c,
               if CpuOf(s.fw, t) == c then PullLocal(t) else PullLow(t, CpuOf(s.fw, t)))
    case PullLocal(t) => Goto(Move(s, t, Ready(Own(c))), c, Rest)
    case PullLow(t, d) => SetCore(s, c, Min(c, d), Some(c), PullHigh(t, d))
    case PullHigh(t, d) => SetCore(s, c, Max(c, d), Some(c), PullMigrate(t, d))
    case PullMigrate(t, d) => Goto(Move(s, t, Migrating(c)), c, PullReady(t, d))
    case PullReady(t, d) => SetCore(Move(s, t, Ready(Own(c))), c, d, None, PullUnlock)
    case PullUnlock => SetCore(s, c, c, None, Rest)
    case PickLocal =>
      if c < |s.fw.own| && s.fw.own[c] != [] then Goto(Move(s, s.fw.own[c][0], Running(c)), c, Rest)
      else Goto(s, c, PickGlobalLock)
    case PickGlobalLock => TakeRq(s, c, PickGlobal)
    case PickGlobal =>
      if s.fw.shared != [] && CpuOf(s.fw, s.fw.shared[0]) == c
      then DropRq(Move(s, s.fw.shared[0], Running(c)).(log := Leave(s.log)), c, Rest)
      else DropRq(s, c, Rest)
    case PutLock(t) => TakeRq(s, c, Put(t))
    case Put(t) => DropRq(Move(s, t, Ready(Shared)).(log := Arrive(s.log, t)), c, Rest)
    case Tick(t) =>
      if c < |s.fw.own| && s.fw.own[c] == [] then Goto(Move(s, t, Ready(Own(c))), c, Rest)
      else Goto(s, c, PutLock(t))
    case BlockLock(t) => TakeRq(s, c, Block(t))
    case Block(t) =>
      var log := if t in s.fw.shared then Withdraw(s.log, IndexOf(s.fw.shared, t)) else s.log;
      DropRq(Move(s, t, Blocked).(log := log), c, Rest)
    case End(t) => Goto(Move(s, t, Terminated), c, Rest)
  }

  function Subject(pc: Pc): Option<Tid> {
    match pc
    case PullLocal(t) => Some(t)
    case PullLow(t, _) => Some(t)
    case PullHigh(t, _) => Some(t)
    case PullMigrate(t, _) => Some(t)
    case PullReady(t, _) => Some(t)
    case PutLock(t) => Some(t)
    case Put(t) => Some(t)
    case Tick(t) => Some(t)
    case BlockLock(t) => Some(t)
    case Block(t) => Some(t)
    case End(t) => Some(t)
    case _ => None
  }

  predicate Free(s: State, t: Tid) {
    forall pc <- s.pc :: Subject(pc) != Some(t)
  }

  predicate Enabled(s: State, e: Event) {
    && e.c < |s.pc| == |s.fw.own| == |s.fw.current|
    && (!e.Advance? ==> s.pc[e.c] == Rest)
    && match e
       case NewlyIdle(c) => true
       case Schedule(c) => s.fw.current[c] == None
       case New(c, t, cpu) => Unused(s.fw, t) && cpu < |s.pc|
       case Unblock(c, t) => t in s.fw.place && s.fw.place[t] == Blocked && Free(s, t)
       case Yield(c) => s.fw.current[c].Some?
       case QuantumEnd(c) => s.fw.current[c].Some?
       case BlockCurrent(c) => s.fw.current[c].Some?
       case TerminateCurrent(c) => s.fw.current[c].Some?
       case BlockQueued(c, t) => s.rqLock == None && t in s.fw.place && s.fw.place[t] == Ready(Shared) && Free(s, t)
       case TerminateBlocked(c, t) => t in s.fw.place && s.fw.place[t] == Blocked && Free(s, t)
       case TerminateQueued(c, t) => t in s.fw.shared && Free(s, t)
       case Advance(c) => CanAdvance(s, c)
  }

  function Step(s: State, e: Event): State
    requires Enabled(s, e)
  {
    match e
    case NewlyIdle(c) => Goto(s, c, PullLock)
    case Schedule(c) => Goto(s, c, PickLocal)
    case New(c, t, cpu) => Goto(s.(fw := Create(s.fw, t, cpu)), c, PutLock(t))
    case Unblock(c, t) => Goto(Move(s, t, NotQueued), c, PutLock(t))
    case Yield(c) => Goto(s, c, PutLock(s.fw.current[c].value))
    case QuantumEnd(c) => Goto(s, c, Tick(s.fw.current[c].value))
    case BlockCurrent(c) => Goto(s, c, BlockLock(s.fw.current[c].value))
    case TerminateCurrent(c) => Goto(s, c, End(s.fw.current[c].value))
    case BlockQueued(c, t) => TakeRq(s, c, Block(t))
    case TerminateBlocked(c, t) => Goto(s, c, End(t))
    case TerminateQueued(c, t) => Move(s, t, Terminated).(log := Withdraw(s.log, IndexOf(s.fw.shared, t)))
    case Advance(c) => Next(s, c)
  }

  function Boot(n: nat): State {
    State(Fw(map[], map[], [], seq(n, _ => []), seq(n, _ => None)), None, seq(n, _ => None), seq(n, _ => Rest), EMPTY)
  }

  // ---------------------------------------------------------------- invariant

  ghost predicate LocksOk(s: State) {
    && |s.pc| == |s.coreLock|
    && (s.rqLock.Some? ==> s.rqLock.value < |s.pc|)
    && (forall c: nat :: c < |s.pc| ==> (s.rqLock == Some(c) <==> HoldsRq(s.pc[c])))
    && (forall d: nat :: d < |s.pc| ==> s.coreLock[d].Some? ==> s.coreLock[d].value < |s.pc|)
    && (forall c: nat, d: nat :: c < |s.pc| && d < |s.pc| ==> (s.coreLock[d] == Some(c) <==> HoldsCore(s.pc[c], c, d)))
  }

  ghost predicate PcOk(f: Fw, c: nat, pc: Pc)
    requires c < |f.current|
  {
    match pc
    case PullLocal(t) => t in f.place && f.place[t] == Held(c)
    case PullLow(t, d) => t in f.place && f.place[t] == Held(c) && d != c && d < |f.own|
    case PullHigh(t, d) => t in f.place && f.place[t] == Held(c) && d != c && d < |f.own|
    case PullMigrate(t, d) => t in f.place && f.place[t] == Held(c) && d != c && d < |f.own|
    case PullReady(t, d) => t in f.place && f.place[t] == Migrating(c) && d != c && d < |f.own|
    case PickLocal => f.current[c] == None
    case PickGlobalLock => f.current[c] == None
    case PickGlobal => f.current[c] == None
    case PutLock(t) => t in f.place && f.place[t] in {NotQueued, Running(c)}
    case Put(t) => t in f.place && f.place[t] in {NotQueued, Running(c)}
    case Tick(t) => t in f.place && f.place[t] == Running(c)
    case BlockLock(t) => t in f.place && f.place[t] == Running(c)
    case Block(t) => t in f.place && f.place[t] in {Running(c), Ready(Shared)}
    case End(t) => t in f.place && f.place[t] in {Running(c), Blocked}
    case _ => true
  }

  /** The core has the task in its hands: off the global queue, not yet in its own. */
  predicate InHand(pc: Pc, t: Tid) {
    match pc
    case PullLocal(u) => u == t
    case PullLow(u, _) => u == t
    case PullHigh(u, _) => u == t
    case PullMigrate(u, _) => u == t
    case PullReady(u, _) => u == t
    case _ => false
  }

  ghost predicate TaskOk(f: Fw, pcs: seq<Pc>, t: Tid)
    requires t in f.place
  {
    && t in f.cpu && f.cpu[t] < |f.own|
    && match f.place[t]
       case Ready(Own(c)) => f.cpu[t] == c
       case Running(c) => f.cpu[t] == c
       case Held(c) => c < |pcs| && InHand(pcs[c], t) && (pcs[c].PullLocal? ==> f.cpu[t] == c)
       case Migrating(c) => f.cpu[t] == c && c < |pcs| && InHand(pcs[c], t) && pcs[c].PullReady?
       case _ => true
  }

  ghost predicate TasksOk(f: Fw, pcs: seq<Pc>) {
    forall t <- f.place :: TaskOk(f, pcs, t)
  }

  ghost predicate Alone(pcs: seq<Pc>) {
    forall c, d :: 0 <= c < d < |pcs| && Subject(pcs[c]).Some? ==> Subject(pcs[c]) != Subject(pcs[d])
  }

  ghost predicate Inv(s: State) {
    && |s.pc| == |s.fw.own|
    && Wf(s.fw)
    && LocksOk(s)
    && (forall c :: 0 <= c < |s.pc| ==> PcOk(s.fw, c, s.pc[c]))
    && TasksOk(s.fw, s.pc)
    && Alone(s.pc)
    && Lawful(s.log, s.fw.shared)
  }
}
