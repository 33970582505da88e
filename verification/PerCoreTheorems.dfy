/** What holds over whole runs of the per-core FIFO, for any number of cores. */
module PerCoreTheorems {
  import opened Queues
  import opened Framework
  import opened Ledgers
  import opened PerCoreFifo
  import opened Words
  import OneCore

  type One = OneCore.One
  type Act = OneCore.Act

  // ---------------------------------------------------------------- one core of the machine

  ghost function AsleepOn(s: State, c: nat): set<Tid> {
    set t <- s.fw.place | s.fw.place[t] == Blocked && Cpu(s, t) == c
  }

  /** What core `c` sees of the machine. */
  ghost function Proj(s: State, c: nat): One {
    var r := CurrentOf(s, c);
    OneCore.One(QueueOf(s, c), r, AsleepOn(s, c),
                if r.Some? then Fp(s, r.value).quantum else 0, if r.Some? then Fp(s, r.value).lastSched else 0,
                Fc(s, c).totalEnqueue, Fc(s, c).scheduleCalls, Fc(s, c).tickCalls)
  }

  /** What an event is for core `c`.  A task that unblocks on another core leaves its old one. */
  function ActOf(s: State, e: Event, c: nat): Option<Act>
    requires Enabled(s, e)
  {
    match e
    case New(t, prev, exec, online) => if SelectCpu(t, prev, exec, online) == c then Some(OneCore.Join(t)) else None
    case Unblock(t, online) =>
      if SelectCpu(t, Cpu(s, t), false, online) == c
      then Some(if Cpu(s, t) == c then OneCore.Wake(t) else OneCore.Join(t))
      else if Cpu(s, t) == c then Some(OneCore.Die(t))
      else None
    case Tick(d, now) => if d == c then Some(OneCore.Charge(now)) else None
    case Yield(d, now) => if d == c then Some(OneCore.GiveUp(now)) else None
    case Block(d) => if d == c then Some(OneCore.Sleep) else None
    case Terminate(t) => if Cpu(s, t) == c then Some(OneCore.Die(t)) else None
    case Schedule(d, now) => if d == c then Some(OneCore.Pick(now)) else None
  }

  ghost predicate FollowsAct(s: State, n: State, c: nat, a: Option<Act>) {
    if a.None? then Proj(n, c) == Proj(s, c)
    else OneCore.Can(Proj(s, c), a.value) && Proj(n, c) == OneCore.Do(Proj(s, c), a.value)
  }

  lemma InQueue(s: State, t: Tid, c: nat)
    requires Placed(s) && c < |s.core|
    ensures t in s.fw.own[c] <==> t in s.fw.place && s.fw.place[t] == Ready(Own(c))
    ensures s.fw.current[c] == Some(t) <==> t in s.fw.place && s.fw.place[t] == Running(c)
    ensures t in AsleepOn(s, c) <==> t in s.fp && s.fw.place[t] == Blocked && s.fw.cpu[t] == c
  {
    assert QueueOk(s.fw.place, s.fw.own[c], Ready(Own(c))) && SlotOk(s.fw.place, s.fw.current[c], c);
  }

  lemma EnqueueQueue(s: State, t: Tid, state: TaskState, c: nat)
    requires Placed(s) && t in s.fp && c < |s.core| && !s.fw.place[t].Ready?
    ensures var n := EnqueueTask(s, t, state);
            && QueueOf(n, c) == (if Cpu(s, t) == c then QueueOf(s, c) + [t] else QueueOf(s, c))
            && CurrentOf(n, c) == (if s.fw.place[t] == Running(c) then None else CurrentOf(s, c))
            && Fc(n, c).totalEnqueue == (if Cpu(s, t) == c then Inc(Fc(s, c).totalEnqueue) else Fc(s, c).totalEnqueue)
            && Fc(n, c).scheduleCalls == Fc(s, c).scheduleCalls && Fc(n, c).tickCalls == Fc(s, c).tickCalls
            && AsleepOn(n, c) == AsleepOn(s, c) - {t}
  {
    var n := EnqueueTask(s, t, state);
    assert n.fw.cpu == s.fw.cpu;
  }

  /** How the core sees a task that joins its queue. */
  function JoinedFrom(o: One, t: Tid): One {
    OneCore.Append((if o.running == Some(t) then OneCore.Idle(o) else o).(asleep := o.asleep - {t}), t)
  }

  lemma EnqueueProj(s: State, t: Tid, state: TaskState, c: nat)
    requires Placed(s) && t in s.fp && c < |s.core| && !s.fw.place[t].Ready?
    ensures Proj(EnqueueTask(s, t, state), c) == if Cpu(s, t) == c then JoinedFrom(Proj(s, c), t) else Proj(s, c)
  {
    EnqueueQueue(s, t, state, c);
    InQueue(s, t, c);
    var n := EnqueueTask(s, t, state);
    if Cpu(s, t) != c {
      assert AsleepOn(n, c) == AsleepOn(s, c);
    }
  }

  lemma ScheduleProj(s: State, d: nat, now: U64, c: nat)
    requires Placed(s) && c < |s.core| && d < |s.core| && s.fw.current[d] == None
    ensures Proj(ScheduleOn(s, d, now), c) == if d == c then OneCore.Started(Proj(s, c), now) else Proj(s, c)
  {
    if s.fw.own[d] != [] {
      HeadOf(s, d);
      var t := s.fw.own[d][0];
      InQueue(s, t, c);
      WithoutFacts(s.fw.own[d], t);
      var n := ScheduleOn(s, d, now);
      assert n.fw.cpu == s.fw.cpu;
      assert AsleepOn(n, c) == AsleepOn(s, c);
    }
  }

  lemma CreatedProj(s: State, t: Tid, d: nat, c: nat)
    requires Inv(s) && t !in s.fp && c < |s.core|
    ensures Proj(s.(fw := Create(s.fw, t, d), fp := s.fp[t := Process(NoState, None, 0, 0)]), c) == Proj(s, c)
    ensures !OneCore.Has(Proj(s, c), t)
  {
    InQueue(s, t, c);
    var m := s.(fw := Create(s.fw, t, d), fp := s.fp[t := Process(NoState, None, 0, 0)]);
    assert AsleepOn(m, c) == AsleepOn(s, c);
  }

  lemma NewbornProj(s: State, t: Tid, d: nat, c: nat)
    requires Inv(s) && t !in s.fp && c < |s.core| && d < |s.core|
    ensures var m := s.(fw := Create(s.fw, t, d), fp := s.fp[t := Process(NoState, None, 0, 0)]);
            Proj(EnqueueTask(m, t, IsReady), c) ==
            if d == c then OneCore.Append(Proj(s, c), t) else Proj(s, c)
  {
    var m := s.(fw := Create(s.fw, t, d), fp := s.fp[t := Process(NoState, None, 0, 0)]);
    NewPlaced(s, t, d);
    CreatedProj(s, t, d, c);
    EnqueueProj(m, t, IsReady, c);
    assert Proj(s, c).asleep - {t} == Proj(s, c).asleep;
  }

  lemma NewProj(s: State, e: Event, c: nat)
    requires Inv(s) && Enabled(s, e) && e.New? && c < |s.core|
    ensures FollowsAct(s, Step(s, e), c, ActOf(s, e, c))
  {
    CreatedProj(s, e.t, SelectCpu(e.t, e.prev, e.exec, e.online), c);
    NewbornProj(s, e.t, SelectCpu(e.t, e.prev, e.exec, e.online), c);
  }

  lemma MovedProj(s: State, t: Tid, d: nat, c: nat)
    requires Placed(s) && t in s.fp && s.fw.place[t] == Blocked
    ensures var m := s.(fw := s.fw.(cpu := s.fw.cpu[t := d]));
            Proj(m, c) == Proj(s, c).(asleep := (AsleepOn(s, c) - {t}) + if c == d then {t} else {})
  {
    var m := s.(fw := s.fw.(cpu := s.fw.cpu[t := d]));
    assert AsleepOn(m, c) == (AsleepOn(s, c) - {t}) + if c == d then {t} else {};
  }

  lemma UnblockedProj(s: State, t: Tid, d: nat, c: nat)
    requires Inv(s) && t in s.fp && s.fw.place[t] == Blocked && c < |s.core| && d < |s.core|
    ensures var o := Proj(s, c).(asleep := Proj(s, c).asleep - {t});
            Proj(EnqueueTask(s.(fw := s.fw.(cpu := s.fw.cpu[t := d])), t, IsReady), c) ==
            if d == c then OneCore.Append(o, t) else o
  {
    var m := s.(fw := s.fw.(cpu := s.fw.cpu[t := d]));
    MovedPlaced(s, t, d);
    MovedProj(s, t, d, c);
    EnqueueProj(m, t, IsReady, c);
    InQueue(s, t, c);
    if d == c {
      assert (Proj(s, c).asleep - {t}) + {t} - {t} == Proj(s, c).asleep - {t};
    } else {
      assert (Proj(s, c).asleep - {t}) + {} == Proj(s, c).asleep - {t};
    }
  }

  /** A sleeper that joins this queue, or another, is one act of this core, or none. */
  lemma UnblockIsAct(o: One, t: Tid, here: bool, was: bool)
    requires if was then t in o.asleep && t !in o.queue && o.running != Some(t) else !OneCore.Has(o, t)
    ensures var m := o.(asleep := o.asleep - {t});
            var n := if here then OneCore.Append(m, t) else m;
            if !here && !was then n == o
            else
              var a := if here && was then OneCore.Wake(t) else if here then OneCore.Join(t) else OneCore.Die(t);
              OneCore.Can(o, a) && n == OneCore.Do(o, a)
  {
    WithoutAbsent(o.queue, t);
    if !was {
      assert o.asleep - {t} == o.asleep;
    }
  }

  lemma UnblockProj(s: State, e: Event, c: nat)
    requires Inv(s) && Enabled(s, e) && e.Unblock? && c < |s.core|
    ensures FollowsAct(s, Step(s, e), c, ActOf(s, e, c))
  {
    var d := SelectCpu(e.t, Cpu(s, e.t), false, e.online);
    UnblockedProj(s, e.t, d, c);
    InQueue(s, e.t, c);
    UnblockIsAct(Proj(s, c), e.t, d == c, Cpu(s, e.t) == c);
  }

  lemma CountProj(s: State, d: nat, c: nat)
    requires c < |s.core|
    ensures Proj(CountTick(s, d), c) == if d == c then Proj(s, c).(ticked := Inc(Proj(s, c).ticked)) else Proj(s, c)
  {
    assert AsleepOn(CountTick(s, d), c) == AsleepOn(s, c);
  }

  lemma ChargeProj(s: State, t: Tid, p: Process, d: nat, c: nat)
    requires Placed(s) && t in s.fp && s.fw.place[t] == Running(d) && c < |s.core| && d < |s.core|
    ensures Proj(s.(fp := s.fp[t := p]), c) ==
            if d == c then Proj(s, c).(charge := p.quantum, start := p.lastSched) else Proj(s, c)
  {
    InQueue(s, t, c);
    InQueue(s, t, d);
    assert AsleepOn(s.(fp := s.fp[t := p]), c) == AsleepOn(s, c);
  }

  lemma BackProj(s: State, t: Tid, state: TaskState, d: nat, c: nat)
    requires Placed(s) && t in s.fp && s.fw.place[t] == Running(d) && c < |s.core| && d < |s.core|
    ensures Proj(EnqueueTask(s, t, state), c) ==
            if d == c then OneCore.Append(OneCore.Idle(Proj(s, c)), t) else Proj(s, c)
  {
    EnqueueProj(s, t, state, c);
    InQueue(s, t, c);
    assert AsleepOn(s, c) - {t} == AsleepOn(s, c);
  }

  lemma ExpireProj(s: State, t: Tid, d: nat, c: nat)
    requires Placed(s) && t in s.fp && s.fw.place[t] == Running(d) && c < |s.core| && d < |s.core|
    ensures Proj(EnqueueTask(Refill(s, t), t, IsReadyTick), c) ==
            if d == c then OneCore.Append(OneCore.Idle(Proj(s, c)), t) else Proj(s, c)
  {
    ChargePlaced(s, t, Refill(s, t).fp[t]);
    ChargeProj(s, t, Refill(s, t).fp[t], d, c);
    BackProj(Refill(s, t), t, IsReadyTick, d, c);
  }

  lemma TickedProj(s: State, t: Tid, now: U64, d: nat, c: nat)
    requires Placed(s) && t in s.fp && s.fw.place[t] == Running(d) && c < |s.core| && d < |s.core|
    ensures d != c ==> Proj(Ticked(s, t, now), c) == Proj(s, c)
    ensures d == c ==>
              && CurrentOf(s, c) == Some(t)
              && Proj(Ticked(s, t, now), c) == OneCore.Do(Proj(s, c), OneCore.Charge(now))
  {
    InQueue(s, t, d);
    assert d == c ==> Spent(s, t, now) == OneCore.Charged(Proj(s, c), now);
    if Spent(s, t, now) >= OneCore.QUANTUM {
      ExpireProj(s, t, d, c);
      var n := EnqueueTask(Refill(s, t), t, IsReadyTick);
      CountProj(n, Cpu(n, t), c);
    } else {
      var p := Fp(s, t).(quantum := Spent(s, t, now));
      ChargeProj(s, t, p, d, c);
      CountProj(s.(fp := s.fp[t := p]), Cpu(s, t), c);
    }
  }

  lemma TickProj(s: State, e: Event, c: nat)
    requires Inv(s) && Enabled(s, e) && e.Tick? && c < |s.core|
    ensures FollowsAct(s, Step(s, e), c, ActOf(s, e, c))
  {
    Runner(s, e.c);
    TickedProj(s, s.fw.current[e.c].value, e.now, e.c, c);
  }

  lemma YieldedProj(s: State, t: Tid, now: U64, d: nat, c: nat)
    requires Placed(s) && t in s.fp && s.fw.place[t] == Running(d) && c < |s.core| && d < |s.core|
    ensures Proj(ScheduleOn(EnqueueTask(s, t, IsReady), d, now), c) ==
            if d == c then OneCore.Started(OneCore.Append(OneCore.Idle(Proj(s, c)), t), now) else Proj(s, c)
  {
    InQueue(s, t, d);
    EnqueuePlaced(s, t, IsReady);
    BackProj(s, t, IsReady, d, c);
    ScheduleProj(EnqueueTask(s, t, IsReady), d, now, c);
  }

  lemma YieldProj(s: State, e: Event, c: nat)
    requires Inv(s) && Enabled(s, e) && e.Yield? && c < |s.core|
    ensures FollowsAct(s, Step(s, e), c, ActOf(s, e, c))
  {
    Runner(s, e.c);
    YieldedProj(s, s.fw.current[e.c].value, e.now, e.c, c);
  }

  lemma BlockedProj(s: State, t: Tid, d: nat, c: nat)
    requires Placed(s) && t in s.fp && s.fw.place[t] == Running(d) && c < |s.core| && d < |s.core|
    ensures var o := Proj(s, c);
            Proj(Blocks(s, t), c) == if d == c then OneCore.Idle(o).(asleep := o.asleep + {t}) else o
  {
    InQueue(s, t, c);
    var n := Blocks(s, t);
    assert n.fw.cpu == s.fw.cpu;
    assert AsleepOn(n, c) == AsleepOn(s, c) + if c == d then {t} else {};
  }

  lemma BlockProj(s: State, e: Event, c: nat)
    requires Inv(s) && Enabled(s, e) && e.Block? && c < |s.core|
    ensures FollowsAct(s, Step(s, e), c, ActOf(s, e, c))
  {
    Runner(s, e.c);
    BlockedProj(s, s.fw.current[e.c].value, e.c, c);
  }

  /** How the core sees the end of a task it knows, or does not know. */
  function Gone(o: One, t: Tid): One {
    if o.running == Some(t) then OneCore.Idle(o)
    else o.(queue := if t in o.queue then Without(o.queue, t) else o.queue, asleep := o.asleep - {t})
  }

  lemma EndAsleep(s: State, t: Tid, c: nat)
    requires Inv(s) && t in s.fp && c < |s.core|
    ensures AsleepOn(Terminates(s, t), c) == AsleepOn(s, c) - {t}
    ensures t !in AsleepOn(s, c) ==> AsleepOn(s, c) - {t} == AsleepOn(s, c)
  {
    EndedSleepers(s, t, c);
  }

  lemma EndedSleepers(s: State, t: Tid, c: nat)
    ensures AsleepOn(Terminates(s, t), c) == AsleepOn(s, c) - {t}
  {
    var n := Terminates(s, t);
    assert n.fw.cpu == s.fw.cpu && n.fw.place == s.fw.place[t := Terminated];
  }

  lemma EndProj(s: State, t: Tid, c: nat)
    requires Inv(s) && t in s.fp && c < |s.core|
    ensures Proj(Terminates(s, t), c) == Gone(Proj(s, c), t)
  {
    InQueue(s, t, c);
    EndAsleep(s, t, c);
  }

  lemma GoneIsDie(o: One, t: Tid)
    requires OneCore.Has(o, t)
    ensures Gone(o, t) == OneCore.Do(o, OneCore.Die(t))
  {
    if t !in o.queue {
      WithoutAbsent(o.queue, t);
    }
  }

  lemma TerminateProj(s: State, e: Event, c: nat)
    requires Inv(s) && Enabled(s, e) && e.Terminate? && c < |s.core|
    ensures FollowsAct(s, Step(s, e), c, ActOf(s, e, c))
  {
    var o := Proj(s, c);
    EndProj(s, e.t, c);
    InQueue(s, e.t, c);
    if Cpu(s, e.t) == c {
      assert Mirrors(s.fw.place[e.t], c, s.fp[e.t]);
      GoneIsDie(o, e.t);
    } else {
      assert o.asleep - {e.t} == o.asleep;
    }
  }

  lemma ScheduleStepProj(s: State, e: Event, c: nat)
    requires Inv(s) && Enabled(s, e) && e.Schedule? && c < |s.core|
    ensures FollowsAct(s, Step(s, e), c, ActOf(s, e, c))
  {
    ScheduleProj(s, e.c, e.now, c);
  }

  /** Each event is, for each core, one act of a single-core scheduler or nothing at all. */
  lemma StepProj(s: State, e: Event, c: nat)
    requires Inv(s) && Enabled(s, e) && c < |s.core|
    ensures FollowsAct(s, Step(s, e), c, ActOf(s, e, c))
  {
    match e
    case New(_, _, _, _) => NewProj(s, e, c);
    case Unblock(_, _) => UnblockProj(s, e, c);
    case Tick(_, _) => TickProj(s, e, c);
    case Yield(_, _) => YieldProj(s, e, c);
    case Block(_) => BlockProj(s, e, c);
    case Terminate(_) => TerminateProj(s, e, c);
    case Schedule(_, _) => ScheduleStepProj(s, e, c);
  }

  // ---------------------------------------------------------------- decomposition

  /** The acts core `c` goes through in a run. */
  ghost function ActsOf(s: State, es: seq<Event>, c: nat): seq<Act>
    requires Run(s, es)
    decreases |es|
  {
    if es == [] then []
    else
      var a := ActOf(s, es[0], c);
      (if a.Some? then [a.value] else []) + ActsOf(Step(s, es[0]), es[1..], c)
  }

  lemma FirstAct(o: One, a: Act, rest: seq<Act>)
    ensures OneCore.Acts(o, [a] + rest) <==> OneCore.Can(o, a) && OneCore.Acts(OneCore.Do(o, a), rest)
    ensures OneCore.Acts(o, [a] + rest) ==> OneCore.After(o, [a] + rest) == OneCore.After(OneCore.Do(o, a), rest)
  {
    assert ([a] + rest)[1..] == rest;
  }

  /** Every run, seen from one core, is a run of the single-core scheduler. */
  lemma {:induction false} SeenFromACore(s: State, es: seq<Event>, c: nat)
    requires Inv(s) && Run(s, es) && c < |s.core|
    ensures OneCore.Acts(Proj(s, c), ActsOf(s, es, c))
    ensures Proj(Exec(s, es), c) == OneCore.After(Proj(s, c), ActsOf(s, es, c))
    decreases |es|
  {
    if es != [] {
      var n := Step(s, es[0]);
      StepKeeps(s, es[0]);
      StepProj(s, es[0], c);
      SeenFromACore(n, es[1..], c);
      var a := ActOf(s, es[0], c);
      if a.Some? {
        FirstAct(Proj(s, c), a.value, ActsOf(n, es[1..], c));
      } else {
        assert [] + ActsOf(n, es[1..], c) == ActsOf(n, es[1..], c);
      }
    }
  }

  /** Events of a machine with `n` cores, all online, and no placement at exec. */
  predicate Plain(e: Event, n: nat) {
    match e
    case New(_, prev, exec, online) => prev < n && !exec && online == n
    case Unblock(_, online) => online == n
    case Tick(c, _) => c < n
    case Yield(c, _) => c < n
    case Block(c) => c < n
    case Terminate(_) => true
    case Schedule(c, _) => c < n
  }

  /** The one core an event concerns, known before the run. */
  function Home(e: Event, n: nat): nat
    requires n > 0
  {
    match e
    case New(t, _, _, _) => t % n
    case Unblock(t, _) => t % n
    case Terminate(t) => t % n
    case Tick(c, _) => c
    case Yield(c, _) => c
    case Block(c) => c
    case Schedule(c, _) => c
  }

  function PlainAct(e: Event): Act {
    match e
    case New(t, _, _, _) => OneCore.Join(t)
    case Unblock(t, _) => OneCore.Wake(t)
    case Tick(_, now) => OneCore.Charge(now)
    case Yield(_, now) => OneCore.GiveUp(now)
    case Block(_) => OneCore.Sleep
    case Terminate(t) => OneCore.Die(t)
    case Schedule(_, now) => OneCore.Pick(now)
  }

  /** The events of core `c`, picked out of the list without running anything. */
  function Share(es: seq<Event>, n: nat, c: nat): seq<Act>
    requires n > 0
  {
    if es == [] then []
    else (if Home(es[0], n) == c then [PlainAct(es[0])] else []) + Share(es[1..], n, c)
  }

  /** Every task that has not ended belongs to the core its pid names. */
  ghost predicate AtHome(s: State, n: nat)
    requires n > 0
  {
    |s.core| == n && forall t <- s.fp :: Cpu(s, t) == t % n
  }

  /** Only creation and unblocking give a task a CPU. */
  lemma CpuKept(s: State, e: Event)
    requires Inv(s) && Enabled(s, e) && !e.New? && !e.Unblock?
    ensures var n := Step(s, e); n.fw.cpu == s.fw.cpu && n.fp.Keys <= s.fp.Keys && |n.core| == |s.core|
  {
    match e
    case Tick(c, _) => Runner(s, c);
    case Yield(c, now) => YieldKeepsCpu(s, c, now);
    case Block(c) => Runner(s, c);
    case Terminate(_) =>
    case Schedule(c, now) => ScheduleKeepsCpu(s, c, now);
  }

  lemma ScheduleKeepsCpu(s: State, c: nat, now: U64)
    requires Placed(s) && c < |s.core|
    ensures var n := ScheduleOn(s, c, now); n.fw.cpu == s.fw.cpu && n.fp.Keys == s.fp.Keys && |n.core| == |s.core|
  {
    if s.fw.own[c] != [] {
      HeadOf(s, c);
    }
  }

  lemma YieldKeepsCpu(s: State, c: nat, now: U64)
    requires Inv(s) && Enabled(s, Yield(c, now))
    ensures var n := Step(s, Yield(c, now)); n.fw.cpu == s.fw.cpu && n.fp.Keys == s.fp.Keys && |n.core| == |s.core|
  {
    Runner(s, c);
    var t := s.fw.current[c].value;
    EnqueuePlaced(s, t, IsReady);
    ScheduleKeepsCpu(EnqueueTask(s, t, IsReady), c, now);
  }

  lemma AtHomeStep(s: State, e: Event, n: nat)
    requires n > 0 && Inv(s) && AtHome(s, n) && Plain(e, n) && Enabled(s, e)
    ensures AtHome(Step(s, e), n)
  {
    if e.New? || e.Unblock? {
      var m := Step(s, e);
      assert m.fw.cpu == s.fw.cpu[e.t := e.t % n] && m.fp.Keys == s.fp.Keys + {e.t};
    } else {
      CpuKept(s, e);
    }
  }

  lemma ActAtHome(s: State, e: Event, n: nat, c: nat)
    requires n > 0 && Inv(s) && AtHome(s, n) && Plain(e, n) && Enabled(s, e)
    ensures ActOf(s, e, c) == if Home(e, n) == c then Some(PlainAct(e)) else None
  {
  }

  /** What an event demands, its own core alone can tell. */
  lemma EnabledAtHome(s: State, e: Event, n: nat)
    requires n > 0 && Inv(s) && AtHome(s, n) && Plain(e, n)
    ensures Enabled(s, e) <==> OneCore.Can(Proj(s, Home(e, n)), PlainAct(e))
  {
    match e
    case New(t, _, _, _) => Knows(s, t, Home(e, n));
    case Unblock(t, _) => Knows(s, t, Home(e, n));
    case Terminate(t) => Knows(s, t, Home(e, n));
    case _ =>
  }

  /** A core knows every task that belongs to it, and knows which of them sleep. */
  lemma Knows(s: State, t: Tid, c: nat)
    requires Inv(s) && c < |s.core| && (t in s.fp ==> Cpu(s, t) == c)
    ensures t in s.fp <==> OneCore.Has(Proj(s, c), t)
    ensures t in s.fp && PlaceOf(s.fw, t) == Blocked <==> t in AsleepOn(s, c)
  {
    InQueue(s, t, c);
    if t in s.fp {
      assert Mirrors(s.fw.place[t], c, s.fp[t]);
    }
  }

  /** Each core's share of the events is a run of its own. */
  ghost predicate EachRuns(s: State, es: seq<Event>, n: nat)
    requires n > 0
  {
    forall c: nat :: c < n ==> OneCore.Acts(Proj(s, c), Share(es, n, c))
  }

  /** Each core ends up in `z` where its own run ends up. */
  ghost predicate EachEnds(s: State, es: seq<Event>, n: nat, z: State)
    requires n > 0 && EachRuns(s, es, n)
  {
    forall c: nat :: c < n ==> Proj(z, c) == OneCore.After(Proj(s, c), Share(es, n, c))
  }

  lemma StepShare(s: State, es: seq<Event>, n: nat, c: nat)
    requires n > 0 && Inv(s) && AtHome(s, n) && es != [] && Plain(es[0], n) && Enabled(s, es[0]) && c < n
    ensures var o, m := Proj(s, c), Proj(Step(s, es[0]), c);
            var acts, rest := Share(es, n, c), Share(es[1..], n, c);
            && (OneCore.Acts(o, acts) <==> OneCore.Acts(m, rest))
            && (OneCore.Acts(o, acts) && OneCore.Acts(m, rest) ==> OneCore.After(o, acts) == OneCore.After(m, rest))
  {
    ActAtHome(s, es[0], n, c);
    StepProj(s, es[0], c);
    if Home(es[0], n) == c {
      FirstAct(Proj(s, c), PlainAct(es[0]), Share(es[1..], n, c));
    } else {
      assert [] + Share(es[1..], n, c) == Share(es[1..], n, c);
    }
  }

  lemma StepShares(s: State, es: seq<Event>, n: nat, z: State)
    requires n > 0 && Inv(s) && AtHome(s, n) && es != [] && Plain(es[0], n) && Enabled(s, es[0])
    ensures EachRuns(s, es, n) <==> EachRuns(Step(s, es[0]), es[1..], n)
    ensures EachRuns(s, es, n) && EachEnds(Step(s, es[0]), es[1..], n, z) ==> EachEnds(s, es, n, z)
  {
    forall c: nat | c < n
      ensures OneCore.Acts(Proj(s, c), Share(es, n, c)) <==> OneCore.Acts(Proj(Step(s, es[0]), c), Share(es[1..], n, c))
      ensures OneCore.Acts(Proj(s, c), Share(es, n, c)) &&
              Proj(z, c) == OneCore.After(Proj(Step(s, es[0]), c), Share(es[1..], n, c)) ==>
                Proj(z, c) == OneCore.After(Proj(s, c), Share(es, n, c))
    {
      StepShare(s, es, n, c);
    }
  }

  lemma FirstEnabled(s: State, es: seq<Event>, n: nat)
    requires n > 0 && Inv(s) && AtHome(s, n) && es != [] && Plain(es[0], n) && EachRuns(s, es, n)
    ensures Enabled(s, es[0])
  {
    var h := Home(es[0], n);
    EnabledAtHome(s, es[0], n);
    assert OneCore.Acts(Proj(s, h), Share(es, n, h));
    FirstAct(Proj(s, h), PlainAct(es[0]), Share(es[1..], n, h));
  }

  /**
   With `n` cores always online and no placement at exec, the machine is `n` independent
   single-core schedulers: a list of events is a run of the machine exactly when each core's
   share of it is a run of a single-core scheduler, and the runs end in the same place.
   */
  lemma {:induction false} Decomposition(s: State, es: seq<Event>, n: nat)
    requires n > 0 && Inv(s) && AtHome(s, n) && forall e <- es :: Plain(e, n)
    ensures Run(s, es) <==> EachRuns(s, es, n)
    ensures Run(s, es) ==> AtHome(Exec(s, es), n) && EachEnds(s, es, n, Exec(s, es))
    decreases |es|
  {
    if es != [] {
      assert Plain(es[0], n);
      if Enabled(s, es[0]) {
        var m := Step(s, es[0]);
        AtHomeStep(s, es[0], n);
        StepKeeps(s, es[0]);
        Decomposition(m, es[1..], n);
        StepShares(s, es, n, if Run(m, es[1..]) then Exec(m, es[1..]) else m);
      } else if EachRuns(s, es, n) {
        FirstEnabled(s, es, n);
      }
    }
  }

  /** Queued or running, a task is on the core its pid names, and nowhere else. */
  lemma OnItsCore(n: nat, es: seq<Event>, t: Tid, c: nat)
    requires n > 0 && Run(Boot(n), es) && (forall e <- es :: Plain(e, n))
    ensures t in QueueOf(Exec(Boot(n), es), c) || CurrentOf(Exec(Boot(n), es), c) == Some(t) ==> c == t % n
  {
    BootInv(n);
    RunKeeps(Boot(n), es);
    Decomposition(Boot(n), es, n);
    var s := Exec(Boot(n), es);
    if c < n {
      InQueue(s, t, c);
      if t in s.fw.own[c] || s.fw.current[c] == Some(t) {
        assert Mirrors(s.fw.place[t], s.fw.cpu[t], s.fp[t]);
      }
    }
  }

  // ---------------------------------------------------------------- bounded waiting

  predicate Schedules(e: Event, c: nat) {
    (e.Schedule? || e.Yield?) && e.c == c
  }

  function ScheduleCalls(es: seq<Event>, c: nat): nat {
    if es == [] then 0 else (if Schedules(es[0], c) then 1 else 0) + ScheduleCalls(es[1..], c)
  }

  /** One of the first `m` schedule calls of core `c` starts `t`, and `t` waits in its queue until then. */
  ghost predicate StartedWithin(s: State, es: seq<Event>, c: nat, t: Tid, m: nat)
    requires Run(s, es)
    decreases |es|
  {
    && es != [] && m > 0 && t in QueueOf(s, c)
    && var n := Step(s, es[0]);
       if Schedules(es[0], c)
       then CurrentOf(n, c) == Some(t) || StartedWithin(n, es[1..], c, t, m - 1)
       else StartedWithin(n, es[1..], c, t, m)
  }

  /** What one act does to the task at position `k` of the queue. */
  lemma ActMoves(o: One, a: Act, k: nat) returns (j: nat)
    requires OneCore.Sound(o) && OneCore.Can(o, a) && k < |o.queue| && a != OneCore.Die(o.queue[k])
    ensures j <= k
    ensures a.Pick? || a.GiveUp? ==> if k == 0 then OneCore.Do(o, a).running == Some(o.queue[0])
                                     else
                                       && j < k && j < |OneCore.Do(o, a).queue|
                                       && OneCore.Do(o, a).queue[j] == o.queue[k]
    ensures !(a.Pick? || a.GiveUp?) ==> j < |OneCore.Do(o, a).queue| && OneCore.Do(o, a).queue[j] == o.queue[k]
  {
    j := k;
    if (a.Pick? || a.GiveUp?) && k > 0 {
      j := k - 1;
    } else if a.Die? && o.running != Some(a.t) {
      if a.t in o.queue {
        var i := IndexOf(o.queue, a.t);
        WithoutAt(o.queue, i);
        j := if i < k then k - 1 else k;
      } else {
        WithoutAbsent(o.queue, a.t);
      }
    }
  }

  lemma SoundProj(s: State, c: nat)
    requires Inv(s) && c < |s.core|
    ensures OneCore.Sound(Proj(s, c))
  {
    forall t ensures t in s.fw.own[c] ==> s.fw.current[c] != Some(t) && t !in AsleepOn(s, c) {
      InQueue(s, t, c);
    }
    if s.fw.current[c].Some? {
      InQueue(s, s.fw.current[c].value, c);
    }
    assert QueueOk(s.fw.place, s.fw.own[c], Ready(Own(c)));
  }

  lemma ActSpares(s: State, e: Event, c: nat, t: Tid)
    requires Inv(s) && Enabled(s, e) && c < |s.core| && t in s.fw.own[c] && e != Terminate(t)
    ensures ActOf(s, e, c) != Some(OneCore.Die(t))
    ensures ActOf(s, e, c).Some? && (ActOf(s, e, c).value.Pick? || ActOf(s, e, c).value.GiveUp?) <==> Schedules(e, c)
  {
    InQueue(s, t, c);
  }

  lemma EventMoves(s: State, e: Event, c: nat, k: nat) returns (j: nat)
    requires Inv(s) && Enabled(s, e) && c < |s.core| && k < |s.fw.own[c]| && e != Terminate(s.fw.own[c][k])
    ensures j <= k
    ensures Schedules(e, c) ==> if k == 0 then CurrentOf(Step(s, e), c) == Some(s.fw.own[c][0])
                                else
                                  && j < k && j < |QueueOf(Step(s, e), c)|
                                  && QueueOf(Step(s, e), c)[j] == s.fw.own[c][k]
    ensures !Schedules(e, c) ==> j < |QueueOf(Step(s, e), c)| && QueueOf(Step(s, e), c)[j] == s.fw.own[c][k]
  {
    var o, n := Proj(s, c), Proj(Step(s, e), c);
    var a := ActOf(s, e, c);
    assert FollowsAct(s, Step(s, e), c, a) by {
      StepProj(s, e, c);
    }
    SoundProj(s, c);
    ActSpares(s, e, c, s.fw.own[c][k]);
    j := k;
    if a.Some? {
      j := ActMoves(o, a.value, k);
    }
    assert n.queue == QueueOf(Step(s, e), c) && n.running == CurrentOf(Step(s, e), c);
  }

  /** `t` waits at position `k`, is never terminated, and more than `k` schedule calls of its core come. */
  ghost predicate Waits(s: State, es: seq<Event>, c: nat, t: Tid, k: nat) {
    && Inv(s) && Run(s, es) && c < |s.core| && k < |QueueOf(s, c)| && QueueOf(s, c)[k] == t
    && Terminate(t) !in es
    && ScheduleCalls(es, c) > k
  }

  predicate StartsNow(e: Event, c: nat, k: nat) {
    Schedules(e, c) && k == 0
  }

  function Rest(e: Event, c: nat, m: nat): nat
    requires m > 0
  {
    if Schedules(e, c) then m - 1 else m
  }

  lemma WaitsOn(s: State, es: seq<Event>, c: nat, t: Tid, k: nat, m: nat) returns (j: nat)
    requires Waits(s, es, c, t, k) && m > k
    ensures es != [] && Enabled(s, es[0])
    ensures StartsNow(es[0], c, k) ==> StartedWithin(s, es, c, t, m)
    ensures !StartsNow(es[0], c, k) ==> Waits(Step(s, es[0]), es[1..], c, t, j) && Rest(es[0], c, m) > j
  {
    StepKeeps(s, es[0]);
    j := EventMoves(s, es[0], c, k);
  }

  lemma StartedLater(s: State, es: seq<Event>, c: nat, t: Tid, m: nat)
    requires Run(s, es) && es != [] && t in QueueOf(s, c) && m > 0
    requires StartedWithin(Step(s, es[0]), es[1..], c, t, Rest(es[0], c, m))
    ensures StartedWithin(s, es, c, t, m)
  {
  }

  /**
   No overtaking: a task with `k` tasks ahead of it is started by one of the next k+1 schedule
   calls of its core (and so within any `m` greater than `k`), whatever else happens, unless it
   is itself terminated.
   */
  lemma {:induction false} BoundedWaiting(s: State, es: seq<Event>, c: nat, t: Tid, k: nat, m: nat)
    requires Waits(s, es, c, t, k) && m > k
    ensures StartedWithin(s, es, c, t, m)
    decreases |es|
  {
    var j := WaitsOn(s, es, c, t, k, m);
    if !StartsNow(es[0], c, k) {
      BoundedWaiting(Step(s, es[0]), es[1..], c, t, j, Rest(es[0], c, m));
      StartedLater(s, es, c, t, m);
    }
  }

  // ---------------------------------------------------------------- order and counts

  lemma BootProj(n: nat, c: nat)
    requires c < n
    ensures Proj(Boot(n), c) == OneCore.FRESH
  {
    assert AsleepOn(Boot(n), c) == {};
  }

  /** From boot on, each core has been a fresh single-core scheduler going through the acts of that core. */
  lemma FromBoot(n: nat, es: seq<Event>, c: nat)
    requires c < n && Run(Boot(n), es)
    ensures var s := Exec(Boot(n), es); Inv(s) && c < n == |s.core| == |s.fw.own| == |s.fw.current|
    ensures OneCore.Acts(OneCore.FRESH, ActsOf(Boot(n), es, c))
    ensures Proj(Exec(Boot(n), es), c) == OneCore.After(OneCore.FRESH, ActsOf(Boot(n), es, c))
  {
    BootInv(n);
    BootProj(n, c);
    RunKeeps(Boot(n), es);
    SeenFromACore(Boot(n), es, c);
  }

  /** A removal from the queue of core `c` is the end of a task that waits there, and nothing else. */
  lemma RemovalIsTerminate(s: State, e: Event, c: nat)
    requires Inv(s) && Enabled(s, e) && c < |s.core|
    ensures var a := ActOf(s, e, c);
            a.Some? && OneCore.Removes(Proj(s, c), a.value) <==> e.Terminate? && e.t in s.fw.own[c]
  {
    if e.Terminate? || e.Unblock? {
      InQueue(s, e.t, c);
      assert e.t in s.fp ==> Mirrors(s.fw.place[e.t], s.fw.cpu[e.t], s.fp[e.t]);
    }
  }

  /**
   total_enqueue = schedule_calls + queue length + tasks removed while queued, modulo 2^64, on
   every core, at any moment.
   */
  lemma CountingLaw(n: nat, es: seq<Event>, c: nat)
    requires c < n && Run(Boot(n), es)
    ensures OneCore.Acts(OneCore.FRESH, ActsOf(Boot(n), es, c))
    ensures Counted(Exec(Boot(n), es), c, OneCore.Removals(OneCore.FRESH, ActsOf(Boot(n), es, c)))
  {
    FromBoot(n, es, c);
    OneCore.Totals(ActsOf(Boot(n), es, c));
    TalliedIsCounted(Exec(Boot(n), es), c, OneCore.Removals(OneCore.FRESH, ActsOf(Boot(n), es, c)));
  }

  ghost predicate Counted(s: State, c: nat, gone: nat) {
    && c < |s.core| == |s.fw.own|
    && s.core[c].totalEnqueue == (s.core[c].scheduleCalls + |s.fw.own[c]| + gone) % TWO64
  }

  lemma TalliedIsCounted(s: State, c: nat, gone: nat)
    requires c < |s.core| == |s.fw.own| && OneCore.Tallied(Proj(s, c), gone)
    ensures Counted(s, c, gone)
  {
  }

  /** tick_calls counts the ticks of the core, and nothing else, modulo 2^64. */
  lemma TicksCounted(n: nat, es: seq<Event>, c: nat)
    requires c < n && Run(Boot(n), es)
    ensures Fc(Exec(Boot(n), es), c).tickCalls == OneCore.Charges(ActsOf(Boot(n), es, c)) % TWO64
  {
    FromBoot(n, es, c);
    OneCore.Totals(ActsOf(Boot(n), es, c));
  }

  /** The ledger of a core's queue over a whole run is lawful: first in, first out, and its counters count it. */
  lemma FifoOrder(n: nat, es: seq<Event>, c: nat) returns (l: Ledger)
    requires c < n && Run(Boot(n), es)
    ensures OneCore.Acts(OneCore.FRESH, ActsOf(Boot(n), es, c))
    ensures l == OneCore.Log(OneCore.FRESH, ActsOf(Boot(n), es, c), EMPTY)
    ensures var s := Exec(Boot(n), es);
            && c < |s.core| == |s.fw.own| && Lawful(l, s.fw.own[c])
            && |l.arrived| % TWO64 == s.core[c].totalEnqueue && |l.left| % TWO64 == s.core[c].scheduleCalls
  {
    FromBoot(n, es, c);
    l := OneCore.Log(OneCore.FRESH, ActsOf(Boot(n), es, c), EMPTY);
    OneCore.FreshKept(ActsOf(Boot(n), es, c));
  }

  // ---------------------------------------------------------------- time bound

  /**
   Since its last schedule, a running task was charged the sum over the ticks of the time from
   its start to the tick, in a 64-bit word, and the charge is below the quantum.
   */
  lemma ChargeIsSum(n: nat, es: seq<Event>, c: nat, t: Tid)
    requires c < n && Run(Boot(n), es) && CurrentOf(Exec(Boot(n), es), c) == Some(t)
    ensures var s, k := Exec(Boot(n), es), OneCore.Times(ActsOf(Boot(n), es, c), OneCore.UNSET);
            && Fp(s, t).lastSched == k.start
            && Fp(s, t).quantum == OneCore.Total(k) % TWO64
            && Fp(s, t).quantum < OneCore.QUANTUM
  {
    FromBoot(n, es, c);
    OneCore.ClockTold(ActsOf(Boot(n), es, c));
  }

  /**
   With a clock that does not go backward or near its wrap-around, a task still running after its
   ticks has run for less than the quantum.
   */
  lemma TimeBound(n: nat, es: seq<Event>, c: nat, t: Tid)
    requires c < n && Run(Boot(n), es) && CurrentOf(Exec(Boot(n), es), c) == Some(t)
    requires OneCore.Ordered(ActsOf(Boot(n), es, c), 0)
    ensures var s, k := Exec(Boot(n), es), OneCore.Times(ActsOf(Boot(n), es, c), OneCore.UNSET);
            && Fp(s, t).quantum == OneCore.Total(k)
            && forall x <- k.ticks :: 0 <= x - Fp(s, t).lastSched < OneCore.QUANTUM
  {
    FromBoot(n, es, c);
    OneCore.ClockTold(ActsOf(Boot(n), es, c));
  }

  /**
   Exactly when a tick lets the running task go on: its charge stays below the quantum, or the
   64-bit sum wraps around.  Otherwise the task goes to the tail of its core's queue.
   */
  lemma TickVerdict(n: nat, es: seq<Event>, c: nat, t: Tid, now: U64)
    requires c < n && Run(Boot(n), es) && CurrentOf(Exec(Boot(n), es), c) == Some(t)
    requires Fp(Exec(Boot(n), es), t).lastSched <= now
    ensures TickDecides(Exec(Boot(n), es), c, t, now)
  {
    BootInv(n);
    RunKeeps(Boot(n), es);
    ChargeIsSum(n, es, c, t);
    TickDecided(Exec(Boot(n), es), c, t, now);
  }

  ghost predicate TickDecides(s: State, c: nat, t: Tid, now: U64) {
    var e := Tick(c, now);
    var total := Fp(s, t).quantum + (now - Fp(s, t).lastSched);
    && Enabled(s, e)
    && (CurrentOf(Step(s, e), c) == Some(t) <==> total < OneCore.QUANTUM || total >= TWO64)
    && (CurrentOf(Step(s, e), c) != Some(t) ==>
        CurrentOf(Step(s, e), c) == None && QueueOf(Step(s, e), c) == QueueOf(s, c) + [t])
  }

  lemma TickDecided(s: State, c: nat, t: Tid, now: U64)
    requires Inv(s) && c < |s.core| && CurrentOf(s, c) == Some(t)
    requires Fp(s, t).lastSched <= now && Fp(s, t).quantum < OneCore.QUANTUM
    ensures TickDecides(s, c, t, now)
  {
    StepProj(s, Tick(c, now), c);
    OneCore.TickLetsRun(Proj(s, c), now);
  }

  /** With ticks every `p` ns since the start, the m-th lets the task run on if and only if p·m·(m+1)/2 < QUANTUM. */
  lemma RegularTicks(n: nat, es: seq<Event>, c: nat, t: Tid, p: nat, now: U64)
    requires c < n && Run(Boot(n), es) && CurrentOf(Exec(Boot(n), es), c) == Some(t)
    requires OneCore.Ordered(ActsOf(Boot(n), es, c), 0)
    requires OneCore.Regular(OneCore.Times(ActsOf(Boot(n), es, c), OneCore.UNSET), p)
    requires var m := |OneCore.Times(ActsOf(Boot(n), es, c), OneCore.UNSET).ticks| + 1;
             now == Fp(Exec(Boot(n), es), t).lastSched + m * p && now < TWO64 - OneCore.QUANTUM
    ensures var m := |OneCore.Times(ActsOf(Boot(n), es, c), OneCore.UNSET).ticks| + 1;
            && Enabled(Exec(Boot(n), es), Tick(c, now))
            && (CurrentOf(Step(Exec(Boot(n), es), Tick(c, now)), c).Some? <==> p * m * (m + 1) < 2 * OneCore.QUANTUM)
  {
    var s, k := Exec(Boot(n), es), OneCore.Times(ActsOf(Boot(n), es, c), OneCore.UNSET);
    FromBoot(n, es, c);
    OneCore.ClockTold(ActsOf(Boot(n), es, c));
    RegularStep(s, k, c, t, p, now);
  }

  lemma RegularStep(s: State, k: OneCore.Clock, c: nat, t: Tid, p: nat, now: U64)
    requires Inv(s) && c < |s.core| && CurrentOf(s, c) == Some(t) && OneCore.Honest(Proj(s, c), k)
    requires OneCore.Regular(k, p) && now == Fp(s, t).lastSched + (|k.ticks| + 1) * p && now < TWO64 - OneCore.QUANTUM
    ensures var m := |k.ticks| + 1;
            && Enabled(s, Tick(c, now))
            && (CurrentOf(Step(s, Tick(c, now)), c).Some? <==> p * m * (m + 1) < 2 * OneCore.QUANTUM)
  {
    OneCore.RegularVerdict(Proj(s, c), k, p, now);
    StepProj(s, Tick(c, now), c);
  }

  /** On one core: a task started at 0 and ticked at 7 ms and 14 ms is back in the queue at 14 ms. */
  lemma QuantumEndsEarly(t: Tid)
    ensures var es := [New(t, 0, false, 1), Schedule(0, 0), Tick(0, 7_000_000), Tick(0, 14_000_000)];
            && Run(Boot(1), es)
            && CurrentOf(Exec(Boot(1), es), 0) == None && QueueOf(Exec(Boot(1), es), 0) == [t]
  {
    var es := [New(t, 0, false, 1), Schedule(0, 0), Tick(0, 7_000_000), Tick(0, 14_000_000)];
    var acts := [OneCore.Join(t), OneCore.Pick(0), OneCore.Charge(7_000_000), OneCore.Charge(14_000_000)];
    assert Share(es, 1, 0) == acts by {
      assert es[1..][1..][1..][1..] == [];
      assert Share(es[1..][1..][1..], 1, 0) == [acts[3]];
      assert Share(es[1..][1..], 1, 0) == [acts[2], acts[3]];
      assert Share(es[1..], 1, 0) == [acts[1], acts[2], acts[3]];
    }
    OneCore.EarlyEnd(t);
    BootInv(1);
    BootProj(1, 0);
    assert EachRuns(Boot(1), es, 1);
    Decomposition(Boot(1), es, 1);
  }

  // ---------------------------------------------------------------- metadata

  /**
   After any run, metadata mirrors the framework's placement and `_current` is the running task,
   never one that ended.
   */
  lemma MetadataMirrors(n: nat, es: seq<Event>, c: nat, t: Tid)
    requires Run(Boot(n), es)
    ensures var s := Exec(Boot(n), es);
            && (t in s.fp ==> t in s.fw.place && t in s.fw.cpu && Mirrors(s.fw.place[t], s.fw.cpu[t], s.fp[t]))
            && (c < n ==> |s.core| == |s.fw.current| == n && s.core[c].curr == s.fw.current[c])
            && (c < n && s.core[c].curr == Some(t) ==> t in s.fp && s.fp[t].state.IsRunning? && s.fw.cpu[t] == c)
  {
    BootInv(n);
    RunKeeps(Boot(n), es);
    var s := Exec(Boot(n), es);
    if c < n && s.core[c].curr == Some(t) {
      Runner(s, c);
    }
  }

  /** Between a yield and the schedule that follows it, `_current` is a task that no longer runs. */
  lemma YieldLeavesCurrent(s: State, c: nat)
    requires Inv(s) && c < |s.core| && s.fw.current[c].Some?
    ensures var n := EnqueueTask(s, s.fw.current[c].value, IsReady);
            && n.fw.current[c] == None && n.core[c].curr == s.fw.current[c]
            && Placed(n) && !Currents(n)
  {
    Runner(s, c);
    EnqueuePlaced(s, s.fw.current[c].value, IsReady);
  }
}
