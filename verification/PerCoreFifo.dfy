/**
 fifo_benchs: one FIFO queue per core, a task placed by its pid, a quantum charged at ticks.
 Each event is one run of a handler with the framework's part before it: `prepare` picks the
 core, the framework gives the task that core, `place` queues it.
 */
module PerCoreFifo {
  import opened Queues
  import opened Framework
  import opened Words
  import OneCore

  datatype TaskState = NoState | IsReady | IsReadyTick | IsRunning | IsBlocked

  /** struct fifo_process. */
  datatype Process = Process(state: TaskState, rq: Option<nat>, quantum: U64, lastSched: U64)

  /** struct fifo_core: the running task and the counters. */
  datatype Core = Core(curr: Option<Tid>, totalEnqueue: U64, scheduleCalls: U64, tickCalls: U64)

  datatype State = State(fw: Fw, fp: map<Tid, Process>, core: seq<Core>)

  /** Tasks are named by their pids.  `online` is the number of online CPUs at that moment. */
  datatype Event =
    | New(t: Tid, prev: nat, exec: bool, online: nat)
    | Unblock(t: Tid, online: nat)
    | Tick(c: nat, now: U64)
    | Yield(c: nat, now: U64)          // fifo_yield, then fifo_schedule
    | Block(c: nat)
    | Terminate(t: Tid)
    | Schedule(c: nat, now: U64)

  function SelectCpu(pid: Tid, prev: nat, exec: bool, online: nat): nat
    requires online > 0
  {
    if exec then prev else pid % online
  }

  // Lookups that the invariant keeps inside their domains.

  function Cpu(s: State, t: Tid): nat {
    if t in s.fw.cpu then s.fw.cpu[t] else 0
  }

  function Fp(s: State, t: Tid): Process {
    if t in s.fp then s.fp[t] else Process(NoState, None, 0, 0)
  }

  function Fc(s: State, c: nat): Core {
    if c < |s.core| then s.core[c] else Core(None, 0, 0, 0)
  }

  function SetFc(s: State, c: nat, k: Core): State {
    if c < |s.core| then s.(core := s.core[c := k]) else s
  }

  function CurrentOf(s: State, c: nat): Option<Tid> {
    if c < |s.fw.current| then s.fw.current[c] else None
  }

  function QueueOf(s: State, c: nat): seq<Tid> {
    if c < |s.fw.own| then s.fw.own[c] else []
  }

  function CurrTask(s: State, c: nat): Tid {
    if CurrentOf(s, c).Some? then CurrentOf(s, c).value else 0
  }

  // ---------------------------------------------------------------- handlers

  /** What fifo_enqueue_task notes down before it calls change_state. */
  function Marked(s: State, t: Tid, state: TaskState): State {
    var c := Cpu(s, t);
    var fc := Fc(s, c);
    SetFc(s, c, fc.(curr := if state.IsReadyTick? then None else fc.curr, totalEnqueue := Inc(fc.totalEnqueue)))
    .(fp := s.fp[t := Fp(s, t).(state := state, rq := Some(c))])
  }

  function EnqueueTask(s: State, t: Tid, state: TaskState): State {
    Marked(s, t, state).(fw := ChangeState(s.fw, t, Ready(Own(Cpu(s, t)))))
  }

  function ScheduleOn(s: State, c: nat, now: U64): State {
    if QueueOf(s, c) == [] then s
    else
      var t := QueueOf(s, c)[0];
      var n := SetFc(s, c, Fc(s, c).(curr := Some(t), scheduleCalls := Inc(Fc(s, c).scheduleCalls)));
      n.(fp := s.fp[t := Process(IsRunning, None, 0, now)], fw := ChangeState(s.fw, t, Running(Cpu(s, t))))
  }

  /** The charge after a tick: once more the whole time since the start, in a 64-bit word. */
  function Spent(s: State, t: Tid, now: U64): U64 {
    (Fp(s, t).quantum + (now - Fp(s, t).lastSched)) % TWO64
  }

  function Charged(s: State, t: Tid, now: U64): State {
    s.(fp := s.fp[t := Fp(s, t).(quantum := Spent(s, t, now))])
  }

  function CountTick(s: State, c: nat): State {
    SetFc(s, c, Fc(s, c).(tickCalls := Inc(Fc(s, c).tickCalls)))
  }

  function Refill(s: State, t: Tid): State {
    s.(fp := s.fp[t := Fp(s, t).(quantum := 0, lastSched := 0)])
  }

  function Ticked(s: State, t: Tid, now: U64): State {
    var n := if Spent(s, t, now) >= OneCore.QUANTUM then EnqueueTask(Refill(s, t), t, IsReadyTick)
             else Charged(s, t, now);
    CountTick(n, Cpu(n, t))
  }

  lemma RefillCharged(s: State, t: Tid, now: U64)
    ensures Refill(Charged(s, t, now), t) == Refill(s, t)
  {
    assert Charged(s, t, now).fp[t := Fp(s, t).(quantum := 0, lastSched := 0)] == Refill(s, t).fp;
  }

  function Blocks(s: State, t: Tid): State {
    var c := Cpu(s, t);
    SetFc(s, c, Fc(s, c).(curr := None))
    .(fp := s.fp[t := Fp(s, t).(state := IsBlocked, rq := None)], fw := ChangeState(s.fw, t, Blocked))
  }

  function Released(s: State, t: Tid): State {
    var c := Cpu(s, t);
    if Fp(s, t).state.IsRunning? then SetFc(s, c, Fc(s, c).(curr := None)) else s
  }

  function Terminates(s: State, t: Tid): State {
    Released(s, t).(fp := s.fp - {t}, fw := ChangeState(s.fw, t, Terminated))
  }

  predicate Enabled(s: State, e: Event) {
    var n := |s.core|;
    match e
    case New(t, prev, _, online) => t !in s.fp && prev < n && 0 < online <= n
    case Unblock(t, online) => t in s.fp && PlaceOf(s.fw, t) == Blocked && 0 < online <= n
    case Tick(c, _) => c < n && CurrentOf(s, c).Some?
    case Yield(c, _) => c < n && CurrentOf(s, c).Some?
    case Block(c) => c < n && CurrentOf(s, c).Some?
    case Terminate(t) => t in s.fp
    case Schedule(c, _) => c < n && CurrentOf(s, c).None?
  }

  function Step(s: State, e: Event): State
    requires Enabled(s, e)
  {
    match e
    case New(t, prev, exec, online) =>
      var c := SelectCpu(t, prev, exec, online);
      EnqueueTask(s.(fw := Create(s.fw, t, c), fp := s.fp[t := Process(NoState, None, 0, 0)]),
                  t, IsReady)
    case Unblock(t, online) =>
      EnqueueTask(s.(fw := s.fw.(cpu := s.fw.cpu[t := SelectCpu(t, Cpu(s, t), false, online)])), t, IsReady)
    case Tick(c, now) => Ticked(s, CurrTask(s, c), now)
    case Yield(c, now) => ScheduleOn(EnqueueTask(s, CurrTask(s, c), IsReady), c, now)
    case Block(c) => Blocks(s, CurrTask(s, c))
    case Terminate(t) => Terminates(s, t)
    case Schedule(c, now) => ScheduleOn(s, c, now)
  }

  function Boot(n: nat): State {
    State(Fw(map[], map[], [], seq(n, _ => []), seq(n, _ => None)), map[], seq(n, _ => Core(None, 0, 0, 0)))
  }

  ghost predicate Run(s: State, es: seq<Event>)
    decreases |es|
  {
    es != [] ==> Enabled(s, es[0]) && Run(Step(s, es[0]), es[1..])
  }

  ghost function Exec(s: State, es: seq<Event>): State
    requires Run(s, es)
    decreases |es|
  {
    if es == [] then s else Exec(Step(s, es[0]), es[1..])
  }

  // ---------------------------------------------------------------- invariant

  /** What the policy noted down about a task agrees with where the framework has it. */
  predicate Mirrors(p: Place, cpu: nat, fp: Process) {
    match p
    case NotQueued => fp.state.NoState? && fp.rq == None
    case Ready(Own(c)) => (fp.state.IsReady? || fp.state.IsReadyTick?) && fp.rq == Some(c) && c == cpu
    case Running(c) => fp.state.IsRunning? && fp.rq == None && c == cpu
    case Blocked => fp.state.IsBlocked? && fp.rq == None
    case _ => false
  }

  /** Every task that has not ended has its metadata, which mirrors its place; ended tasks have none. */
  ghost predicate Filed(place: map<Tid, Place>, cpu: map<Tid, nat>, fp: map<Tid, Process>, n: nat) {
    && (forall t :: t in fp <==> t in place && !place[t].Terminated?)
    && (forall t <- fp :: t in cpu && cpu[t] < n && Mirrors(place[t], cpu[t], fp[t]))
  }

  ghost predicate Placed(s: State) {
    Wf(s.fw) && |s.core| == |s.fw.own| && Filed(s.fw.place, s.fw.cpu, s.fp, |s.core|)
  }

  /** `_current` of each core is the task that runs there. */
  ghost predicate Currents(s: State) {
    |s.core| == |s.fw.current| && forall c :: 0 <= c < |s.core| ==> s.core[c].curr == s.fw.current[c]
  }

  /** Between events no task is on its way to a queue. */
  ghost predicate Settled(s: State) {
    forall t <- s.fp :: PlaceOf(s.fw, t) != NotQueued
  }

  ghost predicate Inv(s: State) {
    Placed(s) && Currents(s) && Settled(s)
  }

  lemma FiledMove(place: map<Tid, Place>, cpu: map<Tid, nat>, fp: map<Tid, Process>, n: nat, t: Tid, to: Place,
                  p: Process)
    requires Filed(place, cpu, fp, n) && t in fp && Mirrors(to, cpu[t], p)
    ensures Filed(place[t := to], cpu, fp[t := p], n)
  {
    assert !to.Terminated?;
  }

  lemma PlacedMove(s: State, t: Tid, to: Place, fp: Process, core: seq<Core>)
    requires Placed(s) && t in s.fp && |core| == |s.core| && Fits(|s.core|, to)
    requires to.Running? ==> s.fw.current[to.core] in {None, Some(t)}
    requires !to.Migrating? && Mirrors(to, s.fw.cpu[t], fp)
    ensures Placed(State(ChangeState(s.fw, t, to), s.fp[t := fp], core))
  {
    ChangeStateWf(s.fw, t, to);
    FiledMove(s.fw.place, s.fw.cpu, s.fp, |s.core|, t, to, fp);
  }

  lemma EnqueuePlaced(s: State, t: Tid, state: TaskState)
    requires Placed(s) && t in s.fp && (state.IsReady? || state.IsReadyTick?)
    ensures Placed(EnqueueTask(s, t, state))
  {
    var n := EnqueueTask(s, t, state);
    PlacedMove(s, t, Ready(Own(Cpu(s, t))), n.fp[t], n.core);
  }

  lemma HeadOf(s: State, c: nat)
    requires Placed(s) && c < |s.core| && s.fw.own[c] != []
    ensures var t := s.fw.own[c][0];
            t in s.fp && t in s.fw.place && s.fw.place[t] == Ready(Own(c)) && Cpu(s, t) == c
  {
    var t := s.fw.own[c][0];
    assert t in s.fw.own[c] && QueueOk(s.fw.place, s.fw.own[c], Ready(Own(c)));
  }

  lemma Runner(s: State, c: nat)
    requires Placed(s) && c < |s.core| && s.fw.current[c].Some?
    ensures var t := s.fw.current[c].value;
            t in s.fp && t in s.fw.place && s.fw.place[t] == Running(c) && Cpu(s, t) == c
  {
    assert SlotOk(s.fw.place, s.fw.current[c], c);
  }

  lemma SchedulePlaced(s: State, c: nat, now: U64)
    requires Placed(s) && c < |s.core| && s.fw.current[c] == None
    ensures Placed(ScheduleOn(s, c, now))
  {
    if s.fw.own[c] != [] {
      HeadOf(s, c);
      var n := ScheduleOn(s, c, now);
      var t := s.fw.own[c][0];
      PlacedMove(s, t, Running(c), n.fp[t], n.core);
    }
  }

  lemma FiledNew(place: map<Tid, Place>, cpu: map<Tid, nat>, fp: map<Tid, Process>, n: nat, t: Tid, c: nat)
    requires Filed(place, cpu, fp, n) && t !in fp && c < n
    ensures Filed(place[t := NotQueued], cpu[t := c], fp[t := Process(NoState, None, 0, 0)], n)
  {
  }

  lemma NewPlaced(s: State, t: Tid, c: nat)
    requires Placed(s) && t !in s.fp && c < |s.core|
    ensures Placed(s.(fw := Create(s.fw, t, c), fp := s.fp[t := Process(NoState, None, 0, 0)]))
  {
    CreateWf(s.fw, t, c);
    FiledNew(s.fw.place, s.fw.cpu, s.fp, |s.core|, t, c);
  }

  lemma FiledCpu(place: map<Tid, Place>, cpu: map<Tid, nat>, fp: map<Tid, Process>, n: nat, t: Tid, c: nat)
    requires Filed(place, cpu, fp, n) && t in fp && place[t] == Blocked && c < n
    ensures Filed(place, cpu[t := c], fp, n)
  {
  }

  lemma MovedPlaced(s: State, t: Tid, c: nat)
    requires Placed(s) && t in s.fp && s.fw.place[t] == Blocked && c < |s.core|
    ensures Placed(s.(fw := s.fw.(cpu := s.fw.cpu[t := c])))
  {
    FiledCpu(s.fw.place, s.fw.cpu, s.fp, |s.core|, t, c);
  }

  lemma ChargePlaced(s: State, t: Tid, p: Process)
    requires Placed(s) && t in s.fp && p.state == s.fp[t].state && p.rq == s.fp[t].rq
    ensures Placed(s.(fp := s.fp[t := p]))
  {
    assert s.fw.place[t := s.fw.place[t]] == s.fw.place;
    FiledMove(s.fw.place, s.fw.cpu, s.fp, |s.core|, t, s.fw.place[t], p);
  }

  lemma EnqueueCurrents(s: State, t: Tid, state: TaskState)
    requires Placed(s) && Currents(s) && t in s.fp
    requires s.fw.place[t].Running? <==> state.IsReadyTick?
    ensures Currents(EnqueueTask(s, t, state))
  {
  }

  lemma ArrivalKeeps(s: State, m: State, t: Tid)
    requires Inv(s) && Placed(m) && m.core == s.core && m.fw.current == s.fw.current
    requires t in m.fp && !m.fw.place[t].Running?
    requires forall u <- m.fp :: u != t ==> PlaceOf(m.fw, u) != NotQueued
    ensures Inv(EnqueueTask(m, t, IsReady))
  {
    assert Currents(m);
    EnqueuePlaced(m, t, IsReady);
    EnqueueCurrents(m, t, IsReady);
    EnqueueSettled(m, t, IsReady);
  }

  lemma EnqueueSettled(m: State, t: Tid, state: TaskState)
    requires t in m.fp && forall u <- m.fp :: u != t ==> PlaceOf(m.fw, u) != NotQueued
    ensures Settled(EnqueueTask(m, t, state))
  {
    var n := EnqueueTask(m, t, state);
    assert n.fw.place == m.fw.place[t := Ready(Own(Cpu(m, t)))];
  }

  lemma CountKeeps(s: State, c: nat)
    requires Inv(s)
    ensures Inv(CountTick(s, c))
  {
  }

  lemma ExpireKeeps(s: State, t: Tid)
    requires Inv(s) && t in s.fp && s.fw.place[t].Running?
    ensures Inv(EnqueueTask(Refill(s, t), t, IsReadyTick))
  {
    ChargePlaced(s, t, Refill(s, t).fp[t]);
    EnqueuePlaced(Refill(s, t), t, IsReadyTick);
    EnqueueCurrents(Refill(s, t), t, IsReadyTick);
  }

  lemma TickKeeps(s: State, c: nat, now: U64)
    requires Inv(s) && Enabled(s, Tick(c, now))
    ensures Inv(Step(s, Tick(c, now)))
  {
    Runner(s, c);
    var t := s.fw.current[c].value;
    ExpireKeeps(s, t);
    ChargePlaced(s, t, Fp(s, t).(quantum := Spent(s, t, now)));
    var n := if Spent(s, t, now) >= OneCore.QUANTUM then EnqueueTask(Refill(s, t), t, IsReadyTick)
             else Charged(s, t, now);
    CountKeeps(n, Cpu(n, t));
  }

  lemma TakesOver(s: State, c: nat, now: U64)
    requires Placed(s) && Settled(s) && c < |s.core| == |s.fw.current| && s.fw.current[c] == None && s.fw.own[c] != []
    requires forall d :: 0 <= d < |s.core| && d != c ==> s.core[d].curr == s.fw.current[d]
    ensures Inv(ScheduleOn(s, c, now))
  {
    SchedulePlaced(s, c, now);
    HeadOf(s, c);
  }

  lemma YieldKeeps(s: State, c: nat, now: U64)
    requires Inv(s) && Enabled(s, Yield(c, now))
    ensures Inv(Step(s, Yield(c, now)))
  {
    Runner(s, c);
    var t := s.fw.current[c].value;
    EnqueuePlaced(s, t, IsReady);
    TakesOver(EnqueueTask(s, t, IsReady), c, now);
  }

  lemma EndFiled(place: map<Tid, Place>, cpu: map<Tid, nat>, fp: map<Tid, Process>, n: nat, t: Tid)
    requires Filed(place, cpu, fp, n) && t in fp
    ensures Filed(place[t := Terminated], cpu, fp - {t}, n)
  {
  }

  lemma EndCurrents(s: State, t: Tid)
    requires Placed(s) && Currents(s) && t in s.fp
    ensures Currents(Terminates(s, t))
  {
    assert Mirrors(s.fw.place[t], s.fw.cpu[t], s.fp[t]);
  }

  lemma EndKeeps(s: State, t: Tid)
    requires Inv(s) && t in s.fp
    ensures Inv(Terminates(s, t))
  {
    ChangeStateWf(s.fw, t, Terminated);
    EndFiled(s.fw.place, s.fw.cpu, s.fp, |s.core|, t);
    EndCurrents(s, t);
    EndSettled(s, t);
  }

  lemma EndSettled(s: State, t: Tid)
    requires Settled(s)
    ensures Settled(Terminates(s, t))
  {
    assert Terminates(s, t).fw.place == s.fw.place[t := Terminated];
  }

  lemma BlockKeeps(s: State, c: nat)
    requires Inv(s) && Enabled(s, Block(c))
    ensures Inv(Step(s, Block(c)))
  {
    Runner(s, c);
    var t := s.fw.current[c].value;
    PlacedMove(s, t, Blocked, Step(s, Block(c)).fp[t], Step(s, Block(c)).core);
  }

  lemma ScheduleKeeps(s: State, c: nat, now: U64)
    requires Inv(s) && Enabled(s, Schedule(c, now))
    ensures Inv(Step(s, Schedule(c, now)))
  {
    SchedulePlaced(s, c, now);
    if s.fw.own[c] != [] {
      HeadOf(s, c);
    }
  }

  lemma StepKeeps(s: State, e: Event)
    requires Inv(s) && Enabled(s, e)
    ensures Inv(Step(s, e)) && |Step(s, e).core| == |s.core|
  {
    match e
    case New(t, prev, exec, online) =>
      var c := SelectCpu(t, prev, exec, online);
      NewPlaced(s, t, c);
      ArrivalKeeps(s, s.(fw := Create(s.fw, t, c), fp := s.fp[t := Process(NoState, None, 0, 0)]), t);
    case Unblock(t, online) =>
      var c := SelectCpu(t, Cpu(s, t), false, online);
      MovedPlaced(s, t, c);
      ArrivalKeeps(s, s.(fw := s.fw.(cpu := s.fw.cpu[t := c])), t);
    case Tick(c, now) => TickKeeps(s, c, now);
    case Yield(c, now) => YieldKeeps(s, c, now);
    case Block(c) => BlockKeeps(s, c);
    case Terminate(t) => EndKeeps(s, t);
    case Schedule(c, now) => ScheduleKeeps(s, c, now);
  }

  lemma BootInv(n: nat)
    ensures Inv(Boot(n))
  {
    var f := Boot(n).fw;
    assert QueueOk(f.place, f.shared, Ready(Shared));
    assert forall c: nat :: c < n ==> QueueOk(f.place, f.own[c], Ready(Own(c))) && SlotOk(f.place, f.current[c], c);
  }

  lemma {:induction false} RunKeeps(s: State, es: seq<Event>)
    requires Inv(s) && Run(s, es)
    ensures Inv(Exec(s, es)) && |Exec(s, es).core| == |s.core|
    decreases |es|
  {
    if es != [] {
      StepKeeps(s, es[0]);
      RunKeeps(Step(s, es[0]), es[1..]);
    }
  }
}
