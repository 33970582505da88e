/** What holds over whole runs of the global-FIFO protocol, whatever the interleaving. */
module GlobalFifoTheorems {
  import opened Queues
  import opened Framework
  import opened Ledgers
  import opened GlobalFifo
  import opened GlobalFifoProofs

  ghost predicate Run(s: State, es: seq<Event>)
    decreases |es|
  {
    es != [] ==> Enabled(s, es[0]) && Run(Step(s, es[0]), es[1..])
  }

  ghost function Exec(s: State, es: seq<Event>): State
    requires Run(s, es)
    decreases |es|
  {
    if es == [] then s else Exec(Step(s, es[0]), es[1..])
  }

  lemma BootInv(n: nat)
    ensures Inv(Boot(n))
  {
    var f := Boot(n).fw;
    assert QueueOk(f.place, f.shared, Ready(Shared));
    assert forall c: nat :: c < n ==> QueueOk(f.place, f.own[c], Ready(Own(c))) && SlotOk(f.place, f.current[c], c);
  }

  lemma {:induction false} RunKeeps(s: State, es: seq<Event>)
    requires Inv(s) && Run(s, es)
    ensures Inv(Exec(s, es))
    decreases |es|
  {
    if es != [] {
      StepKeeps(s, es[0]);
      RunKeeps(Step(s, es[0]), es[1..]);
    }
  }

  // ---------------------------------------------------------------- one place per task

  /** A pulled task is in the hands of exactly one core, and in no queue, until that core queues it. */
  lemma HeldByOneCore(n: nat, es: seq<Event>, t: Tid, c: nat)
    requires Run(Boot(n), es)
    requires var f := Exec(Boot(n), es).fw; t in f.place && f.place[t] in {Held(c), Migrating(c)}
    ensures var s := Exec(Boot(n), es);
            && c < |s.pc| == |s.fw.own| == |s.fw.current| && InHand(s.pc[c], t)
            && (forall d :: 0 <= d < |s.pc| && InHand(s.pc[d], t) ==> d == c)
            && t !in s.fw.shared
            && forall d :: 0 <= d < |s.pc| ==> t !in s.fw.own[d] && s.fw.current[d] != Some(t)
  {
    BootInv(n);
    RunKeeps(Boot(n), es);
    var s := Exec(Boot(n), es);
    assert TaskOk(s.fw, s.pc, t);
    assert Subject(s.pc[c]) == Some(t);
    assert QueueOk(s.fw.place, s.fw.shared, Ready(Shared));
    assert forall d: nat :: d < |s.pc| ==>
        && QueueOk(s.fw.place, s.fw.own[d], Ready(Own(d)))
        && SlotOk(s.fw.place, s.fw.current[d], d);
  }

  /** A task in a queue or on a core is in no core's hands, and in one queue or on one core only. */
  lemma OnePlace(n: nat, es: seq<Event>, t: Tid, c: nat, d: nat)
    requires Run(Boot(n), es)
    ensures var s := Exec(Boot(n), es);
            && |s.pc| == |s.fw.own| == |s.fw.current|
            && (c < |s.pc| && d < |s.pc| ==>
                  && (t in s.fw.own[c] || s.fw.current[c] == Some(t) ==> !InHand(s.pc[d], t) && t !in s.fw.shared)
                  && (t in s.fw.own[c] ==> s.fw.current[d] != Some(t) && (t in s.fw.own[d] ==> c == d))
                  && (s.fw.current[c] == Some(t) && s.fw.current[d] == Some(t) ==> c == d)
                  && (t in s.fw.shared ==> !InHand(s.pc[d], t))
                  && NoDups(s.fw.shared) && NoDups(s.fw.own[c]))
  {
    BootInv(n);
    RunKeeps(Boot(n), es);
    var s := Exec(Boot(n), es);
    if c < |s.pc| && d < |s.pc| {
      assert PcOk(s.fw, d, s.pc[d]);
      assert QueueOk(s.fw.place, s.fw.shared, Ready(Shared));
      assert QueueOk(s.fw.place, s.fw.own[c], Ready(Own(c))) && SlotOk(s.fw.place, s.fw.current[c], c);
      assert QueueOk(s.fw.place, s.fw.own[d], Ready(Own(d))) && SlotOk(s.fw.place, s.fw.current[d], d);
    }
  }

  // ---------------------------------------------------------------- no deadlock

  /** Following who holds what: each waiting core on the chain waits for a higher lock than it holds. */
  lemma {:induction false} Chain(s: State, c: nat) returns (d: nat)
    requires Inv(s) && c < |s.pc| && WantedCore(s.pc[c], c).Some?
    ensures CanAdvance(s, d)
    decreases |s.pc| - WantedCore(s.pc[c], c).value
  {
    assert PcOk(s.fw, c, s.pc[c]);
    var l := WantedCore(s.pc[c], c).value;
    if s.coreLock[l] == None {
      d := c;
    } else {
      var h := s.coreLock[l].value;
      assert HoldsCore(s.pc[h], h, l);
      assert PcOk(s.fw, h, s.pc[h]);
      if WantedCore(s.pc[h], h).Some? {
        d := Chain(s, h);
      } else {
        d := h;
      }
    }
  }

  /** No reachable state is stuck: if some core is in a handler, some core in a handler can go on. */
  lemma NoDeadlock(s: State, c: nat) returns (d: nat)
    requires Inv(s) && c < |s.pc| && s.pc[c] != Rest
    ensures CanAdvance(s, d)
  {
    if WaitsRq(s.pc[c]) && s.rqLock.Some? {
      d := s.rqLock.value;
      assert HoldsRq(s.pc[d]);
    } else if WantedCore(s.pc[c], c).Some? {
      d := Chain(s, c);
    } else {
      d := c;
    }
  }

  function Left(pc: Pc): nat {
    match pc
    case Rest => 0
    case PullLock => 7
    case PullTake => 6
    case PullLocal(_) => 1
    case PullLow(_, _) => 5
    case PullHigh(_, _) => 4
    case PullMigrate(_, _) => 3
    case PullReady(_, _) => 2
    case PullUnlock => 1
    case PickLocal => 3
    case PickGlobalLock => 2
    case PickGlobal => 1
    case Tick(_) => 3
    case PutLock(_) => 2
    case Put(_) => 1
    case BlockLock(_) => 2
    case Block(_) => 1
    case End(_) => 1
  }

  /** The steps all handlers still need at most. */
  function Work(pcs: seq<Pc>): nat {
    Sum(seq(|pcs|, c requires 0 <= c < |pcs| => Left(pcs[c])))
  }

  lemma WorkUpdate(pcs: seq<Pc>, c: nat, pc: Pc)
    requires c < |pcs|
    ensures Work(pcs[c := pc]) == Work(pcs) - Left(pcs[c]) + Left(pc)
  {
    var lefts := seq(|pcs|, d requires 0 <= d < |pcs| => Left(pcs[d]));
    SumUpdate(lefts, c, Left(pc));
    assert lefts[c := Left(pc)] == seq(|pcs|, d requires 0 <= d < |pcs| => Left(pcs[c := pc][d]));
  }

  lemma LeftDrops(s: State, c: nat)
    requires CanAdvance(s, c)
    ensures |Next(s, c).pc| == |s.pc|
    ensures Next(s, c).pc == s.pc[c := Next(s, c).pc[c]]
    ensures Left(Next(s, c).pc[c]) < Left(s.pc[c])
  {
  }

  /** Handlers finish: from a state with `Work` steps left no interleaving without new events is longer. */
  lemma {:induction false} HandlersFinish(s: State, es: seq<Event>)
    requires Inv(s) && Run(s, es) && forall e <- es :: e.Advance?
    ensures |es| + Work(Exec(s, es).pc) <= Work(s.pc)
    decreases |es|
  {
    if es != [] {
      assert es[0] in es;
      var c := es[0].c;
      LeftDrops(s, c);
      WorkUpdate(s.pc, c, Next(s, c).pc[c]);
      StepKeeps(s, es[0]);
      HandlersFinish(Step(s, es[0]), es[1..]);
    }
  }

  // ---------------------------------------------------------------- global order

  /** What a step may do to the global queue, with the ledger recording exactly that. */
  ghost predicate SharedMoves(f: Fw, l: Ledger, g: Fw, m: Ledger, c: nat) {
    || (g.shared == f.shared && m == l)
    || (exists t :: g.shared == f.shared + [t] && m == Arrive(l, t))
    || (&& f.shared != [] && g.shared == f.shared[1..] && m == Leave(l)
        && PlaceOf(g, f.shared[0]) in {Running(c), Held(c)})
    || (exists k :: && 0 <= k < |f.shared| && g.shared == f.shared[..k] + f.shared[k + 1..]
                    && m == Withdraw(l, k) && PlaceOf(g, f.shared[k]) in {Blocked, Terminated})
  }

  lemma HeadLeaves(s: State, c: nat, to: Place)
    requires Inv(s) && c < |s.pc| && HoldsRq(s.pc[c]) && s.fw.shared != [] && to in {Running(c), Held(c)}
    ensures SharedMoves(s.fw, s.log, ChangeState(s.fw, s.fw.shared[0], to), Leave(s.log), c)
  {
    SharedHead(s, c);
  }

  lemma Dropped(s: State, c: nat, t: Tid, to: Place)
    requires Inv(s) && t in s.fw.shared && to in {Blocked, Terminated}
    ensures SharedMoves(s.fw, s.log, ChangeState(s.fw, t, to), Withdraw(s.log, IndexOf(s.fw.shared, t)), c)
  {
    WithoutAt(s.fw.shared, IndexOf(s.fw.shared, t));
    assert t in s.fw.place && s.fw.place[t] == Ready(Shared);
  }

  lemma SharedPick(s: State, c: nat)
    requires Inv(s) && CanAdvance(s, c) && (s.pc[c].PickLocal? || s.pc[c].PickGlobal?)
    ensures SharedMoves(s.fw, s.log, Next(s, c).fw, Next(s, c).log, c)
  {
    if s.pc[c].PickLocal? && s.fw.own[c] != [] {
      OwnHead(s, c);
    } else if s.pc[c].PickGlobal? && s.fw.shared != [] {
      HeadLeaves(s, c, Running(c));
    }
  }

  lemma SharedBlock(s: State, c: nat, t: Tid)
    requires Inv(s) && CanAdvance(s, c) && s.pc[c] == Block(t)
    ensures SharedMoves(s.fw, s.log, Next(s, c).fw, Next(s, c).log, c)
  {
    assert PcOk(s.fw, c, s.pc[c]);
    if t in s.fw.shared {
      Dropped(s, c, t, Blocked);
    } else {
      assert QueueOk(s.fw.place, s.fw.shared, Ready(Shared));
    }
  }

  lemma SharedNext(s: State, c: nat)
    requires Inv(s) && CanAdvance(s, c)
    ensures SharedMoves(s.fw, s.log, Next(s, c).fw, Next(s, c).log, c)
  {
    assert PcOk(s.fw, c, s.pc[c]);
    match s.pc[c]
    case PullTake =>
      if s.fw.shared != [] {
        HeadLeaves(s, c, Held(c));
      }
    case PickLocal => SharedPick(s, c);
    case PickGlobal => SharedPick(s, c);
    case Block(t) => SharedBlock(s, c, t);
    case _ =>
  }

  /** Every step moves the global queue by at most one arrival, one departure at the head, or one drop. */
  lemma SharedStep(s: State, e: Event)
    requires Inv(s) && Enabled(s, e)
    ensures SharedMoves(s.fw, s.log, Step(s, e).fw, Step(s, e).log, e.c)
  {
    if e.Advance? {
      SharedNext(s, e.c);
    } else if e.TerminateQueued? {
      Dropped(s, e.c, e.t, Terminated);
    }
  }

  /**
   Over any run, the tasks that left the global queue and those still in it are all arrivals, in
   order, less the dropped.
   */
  lemma GlobalOrder(n: nat, es: seq<Event>)
    requires Run(Boot(n), es)
    ensures var l := Exec(Boot(n), es).log;
            && l.left + l.waiting == Survivors(|l.arrived|, l.dropped)
            && |l.waiting| == |Exec(Boot(n), es).fw.shared|
            && (forall i :: 0 <= i < |l.waiting| ==>
                  l.waiting[i] < |l.arrived| && l.arrived[l.waiting[i]] == Exec(Boot(n), es).fw.shared[i])
  {
    BootInv(n);
    RunKeeps(Boot(n), es);
  }

  lemma StepFollows(s: State, e: Event)
    requires Inv(s) && Enabled(s, e)
    ensures Follows(s.log, Step(s, e).log)
  {
    SharedStep(s, e);
  }

  lemma {:induction false} TurnsKept(s: State, es: seq<Event>, ticket: nat, turn: nat)
    requires Inv(s) && Run(s, es) && InTurn(s.log, ticket, turn)
    ensures InTurn(Exec(s, es).log, ticket, turn)
    decreases |es|
  {
    if es != [] {
      StepFollows(s, es[0]);
      TurnKept(s.log, Step(s, es[0]).log, ticket, turn);
      StepKeeps(s, es[0]);
      TurnsKept(Step(s, es[0]), es[1..], ticket, turn);
    }
  }

  /**
   Bounded waiting for the global queue: a task at position `k` is among the next k+1 to leave
   it, once so many have left, unless it was dropped.
   */
  lemma BoundedWaiting(s: State, es: seq<Event>, k: nat)
    requires Inv(s) && Run(s, es) && k < |s.fw.shared|
    requires |Exec(s, es).log.left| > |s.log.left| + k
    ensures var l := Exec(s, es).log;
            var ticket := s.log.waiting[k];
            && ticket < |s.log.arrived| && s.log.arrived[ticket] == s.fw.shared[k]
            && (ticket in l.dropped || ticket in l.left[..|s.log.left| + k + 1])
  {
    var ticket := s.log.waiting[k];
    assert InTurn(s.log, ticket, |s.log.left| + k + 1);
    TurnsKept(s, es, ticket, |s.log.left| + k + 1);
    TurnComes(Exec(s, es).log, ticket, |s.log.left| + k + 1);
  }

  // ---------------------------------------------------------------- a pull is a reservation

  predicate Looks(s: State, e: Event, c: nat) {
    e == Advance(c) && c < |s.pc| && s.pc[c] == PickLocal
  }

  lemma OwnNextPull(s: State, d: nat, c: nat)
    requires Inv(s) && CanAdvance(s, d) && c < |s.pc|
    requires s.pc[d].PullTake? || s.pc[d].PullLocal? || s.pc[d].PullMigrate? || s.pc[d].PullReady?
    ensures c < |Next(s, d).fw.own| && s.fw.own[c] <= Next(s, d).fw.own[c]
  {
    assert PcOk(s.fw, d, s.pc[d]);
    match s.pc[d]
    case PullTake =>
      if s.fw.shared != [] {
        SharedHead(s, d);
        OwnGrows(s.fw, s.fw.shared[0], Held(d), c);
      }
    case PullLocal(t) => OwnGrows(s.fw, t, Ready(Own(d)), c);
    case PullMigrate(t, _) => OwnGrows(s.fw, t, Migrating(d), c);
    case PullReady(t, _) => OwnGrows(s.fw, t, Ready(Own(d)), c);
  }

  lemma OwnNextPick(s: State, d: nat, c: nat)
    requires Inv(s) && CanAdvance(s, d) && c < |s.pc| && (s.pc[d].PickLocal? || s.pc[d].PickGlobal?)
    requires !(s.pc[d] == PickLocal && d == c && s.fw.own[c] != [])
    ensures c < |Next(s, d).fw.own| && s.fw.own[c] <= Next(s, d).fw.own[c]
  {
    if s.pc[d].PickLocal? {
      if s.fw.own[d] != [] {
        OwnHead(s, d);
        OwnGrows(s.fw, s.fw.own[d][0], Running(d), c);
      }
    } else if s.fw.shared != [] {
      SharedHead(s, d);
      OwnGrows(s.fw, s.fw.shared[0], Running(d), c);
    }
  }

  lemma OwnNextPut(s: State, d: nat, c: nat)
    requires Inv(s) && CanAdvance(s, d) && c < |s.pc|
    requires s.pc[d].Put? || s.pc[d].Tick? || s.pc[d].Block? || s.pc[d].End?
    ensures c < |Next(s, d).fw.own| && s.fw.own[c] <= Next(s, d).fw.own[c]
  {
    assert PcOk(s.fw, d, s.pc[d]);
    match s.pc[d]
    case Put(t) => OwnGrows(s.fw, t, Ready(Shared), c);
    case Tick(t) => OwnGrows(s.fw, t, Ready(Own(d)), c);
    case Block(t) => OwnGrows(s.fw, t, Blocked, c);
    case End(t) => OwnGrows(s.fw, t, Terminated, c);
  }

  lemma OwnNext(s: State, d: nat, c: nat)
    requires Inv(s) && CanAdvance(s, d) && c < |s.pc| && !(s.pc[d] == PickLocal && d == c && s.fw.own[c] != [])
    ensures c < |Next(s, d).fw.own| && s.fw.own[c] <= Next(s, d).fw.own[c]
  {
    var pc := s.pc[d];
    if pc.PullTake? || pc.PullLocal? || pc.PullMigrate? || pc.PullReady? {
      OwnNextPull(s, d, c);
    } else if pc.PickLocal? || pc.PickGlobal? {
      OwnNextPick(s, d, c);
    } else if pc.Put? || pc.Tick? || pc.Block? || pc.End? {
      OwnNextPut(s, d, c);
    }
  }

  lemma OwnAdvance(s: State, d: nat, c: nat)
    requires Inv(s) && CanAdvance(s, d) && c < |s.pc|
    ensures var q, n := s.fw.own[c], Next(s, d).fw;
            && c < |n.own| == |n.current|
            && (Looks(s, Advance(d), c) && q != [] ==> n.own[c] == q[1..] && n.current[c] == Some(q[0]))
            && (!(Looks(s, Advance(d), c) && q != []) ==> q <= n.own[c])
  {
    NextKeeps(s, d);
    if Looks(s, Advance(d), c) && s.fw.own[c] != [] {
      OwnTaken(s.fw, c);
    } else {
      OwnNext(s, d, c);
    }
  }

  /** Only a schedule of core `c` takes from its local queue, it takes the head, and it starts it. */
  lemma OwnStep(s: State, e: Event, c: nat)
    requires Inv(s) && Enabled(s, e) && c < |s.pc|
    ensures var q, n := s.fw.own[c], Step(s, e).fw;
            && c < |n.own| == |n.current|
            && (Looks(s, e, c) && q != [] ==> n.own[c] == q[1..] && n.current[c] == Some(q[0]))
            && (!(Looks(s, e, c) && q != []) ==> q <= n.own[c])
  {
    match e
    case Advance(d) => OwnAdvance(s, d, c);
    case Unblock(_, t) => OwnGrows(s.fw, t, NotQueued, c);
    case TerminateQueued(_, t) =>
      assert QueueOk(s.fw.place, s.fw.shared, Ready(Shared));
      OwnGrows(s.fw, t, Terminated, c);
    case _ =>
  }

  ghost function LooksIn(s: State, es: seq<Event>, c: nat): nat
    requires Run(s, es)
    decreases |es|
  {
    if es == [] then 0
    else (if Looks(s, es[0], c) then 1 else 0) + LooksIn(Step(s, es[0]), es[1..], c)
  }

  ghost predicate StartedOn(s: State, es: seq<Event>, t: Tid, c: nat)
    requires Run(s, es)
    decreases |es|
  {
    || (c < |s.fw.current| && s.fw.current[c] == Some(t))
    || (es != [] && StartedOn(Step(s, es[0]), es[1..], t, c))
  }

  /**
   A task at position `k` of a local queue is started there by the core's k+1 next schedules,
   whatever the others do.
   */
  lemma {:induction false} Reservation(s: State, es: seq<Event>, c: nat, k: nat)
    requires Inv(s) && Run(s, es) && c < |s.pc| && k < |s.fw.own[c]|
    requires LooksIn(s, es, c) > k
    ensures StartedOn(s, es, s.fw.own[c][k], c)
    ensures s.fw.own[c][k] in s.fw.cpu && s.fw.cpu[s.fw.own[c][k]] == c
    decreases |es|
  {
    var t := s.fw.own[c][k];
    assert t in s.fw.own[c] && QueueOk(s.fw.place, s.fw.own[c], Ready(Own(c)));
    assert TaskOk(s.fw, s.pc, t);
    var n := Step(s, es[0]);
    StepKeeps(s, es[0]);
    OwnStep(s, es[0], c);
    if Looks(s, es[0], c) {
      if k > 0 {
        Reservation(n, es[1..], c, k - 1);
      } else {
        assert StartedOn(n, es[1..], t, c);
      }
    } else {
      Reservation(n, es[1..], c, k);
    }
  }

  // ---------------------------------------------------------------- one handler, run alone

  function Finish(s: State, c: nat): State
    decreases if c < |s.pc| then Left(s.pc[c]) else 0
  {
    if CanAdvance(s, c) then
      LeftDrops(s, c);
      Finish(Next(s, c), c)
    else s
  }

  /** A handler that runs alone to its end keeps the invariant too. */
  lemma {:induction false} FinishKeeps(s: State, c: nat)
    requires Inv(s)
    ensures Inv(Finish(s, c))
    decreases if c < |s.pc| then Left(s.pc[c]) else 0
  {
    if CanAdvance(s, c) {
      LeftDrops(s, c);
      NextKeeps(s, c);
      FinishKeeps(Next(s, c), c);
    }
  }

  predicate Shaped(s: State, c: nat) {
    && c < |s.pc| == |s.coreLock| == |s.fw.own| == |s.fw.current|
    && s.rqLock == None && forall l <- s.coreLock :: l == None
  }

  /** The global head is taken off the queue, moved to this core if need be, and waits in this core's queue. */
  function Pulled(f: Fw, c: nat): Fw {
    if f.shared == [] then f
    else
      var t := f.shared[0];
      var g := ChangeState(f, t, Held(c));
      ChangeState(if CpuOf(f, t) == c then g else ChangeState(g, t, Migrating(c)), t, Ready(Own(c)))
  }

  /**
   At the end of its quantum a task stays on its core when nothing else waits there, else it goes to
   the global queue.
   */
  function Ticked(f: Fw, c: nat, t: Tid): Fw {
    ChangeState(f, t, if c < |f.own| && f.own[c] == [] then Ready(Own(c)) else Ready(Shared))
  }

  lemma ScheduleAlone(s: State, c: nat)
    requires Shaped(s, c) && s.pc[c] == Rest
    ensures var n := Finish(Goto(s, c, PickLocal), c);
            n.rqLock == None && n.coreLock == s.coreLock && n.pc == s.pc && n.fw == Picked(s.fw, c)
  {
    var s0 := Goto(s, c, PickLocal);
    var s1 := Next(s0, c);
    assert Finish(s0, c) == Finish(s1, c);
    if s.fw.own[c] == [] {
      var s2 := Next(s1, c);
      assert Finish(s1, c) == Finish(s2, c) == Next(s2, c);
    }
    assert s.pc[c := Rest] == s.pc;
  }

  lemma TickAlone(s: State, c: nat, t: Tid)
    requires Shaped(s, c) && s.pc[c] == Rest
    ensures var n := Finish(Goto(s, c, Tick(t)), c);
            n.rqLock == None && n.coreLock == s.coreLock && n.pc == s.pc && n.fw == Ticked(s.fw, c, t)
  {
    var s0 := Goto(s, c, Tick(t));
    var s1 := Next(s0, c);
    assert Finish(s0, c) == Finish(s1, c);
    if s.fw.own[c] != [] {
      var s2 := Next(s1, c);
      assert Finish(s1, c) == Finish(s2, c) == Next(s2, c);
    }
    assert s.pc[c := Rest] == s.pc;
  }

  lemma PutAlone(s: State, c: nat, t: Tid)
    requires Shaped(s, c) && s.pc[c] == Rest
    ensures var n := Finish(Goto(s, c, PutLock(t)), c);
            && n.rqLock == None && n.coreLock == s.coreLock && n.pc == s.pc
            && n.fw == ChangeState(s.fw, t, Ready(Shared)) && n.log == Arrive(s.log, t)
  {
    var s0 := Goto(s, c, PutLock(t));
    var s1 := Next(s0, c);
    assert Finish(s0, c) == Finish(s1, c) == Next(s1, c);
    assert s.pc[c := Rest] == s.pc;
  }

  lemma BlockAlone(s: State, c: nat, t: Tid)
    requires Shaped(s, c) && s.pc[c] == Rest
    ensures var n := Finish(Goto(s, c, BlockLock(t)), c);
            && n.rqLock == None && n.coreLock == s.coreLock && n.pc == s.pc && n.fw == ChangeState(s.fw, t, Blocked)
  {
    var s0 := Goto(s, c, BlockLock(t));
    var s1 := Next(s0, c);
    assert Finish(s0, c) == Finish(s1, c) == Next(s1, c);
    assert s.pc[c := Rest] == s.pc;
  }

  lemma FinishFirst(s: State, c: nat)
    requires CanAdvance(s, c)
    ensures Finish(s, c) == Finish(Next(s, c), c)
  {
  }

  lemma NextLow(s: State, c: nat, t: Tid, d: nat)
    requires c < |s.pc| && s.pc[c] == PullLow(t, d) && Min(c, d) < |s.coreLock| && s.coreLock[Min(c, d)] == None
    ensures CanAdvance(s, c) && Next(s, c) == SetCore(s, c, Min(c, d), Some(c), PullHigh(t, d))
  {
  }

  lemma NextHigh(s: State, c: nat, t: Tid, d: nat)
    requires c < |s.pc| && s.pc[c] == PullHigh(t, d) && Max(c, d) < |s.coreLock| && s.coreLock[Max(c, d)] == None
    ensures CanAdvance(s, c) && Next(s, c) == SetCore(s, c, Max(c, d), Some(c), PullMigrate(t, d))
  {
  }

  lemma NextReady(s: State, c: nat, t: Tid, d: nat)
    requires c < |s.pc| && s.pc[c] == PullReady(t, d)
    ensures CanAdvance(s, c) && Next(s, c) == SetCore(Move(s, t, Ready(Own(c))), c, d, None, PullUnlock)
  {
  }

  lemma NextMigrate(s: State, c: nat, t: Tid, d: nat)
    requires c < |s.pc| && s.pc[c] == PullMigrate(t, d)
    ensures CanAdvance(s, c) && Next(s, c) == Goto(Move(s, t, Migrating(c)), c, PullReady(t, d))
  {
  }

  lemma MigrateStep(s: State, c: nat, t: Tid, d: nat)
    requires c < |s.pc| && s.pc[c] == PullMigrate(t, d)
    ensures Finish(s, c) == Finish(Goto(Move(s, t, Migrating(c)), c, PullReady(t, d)), c)
  {
    NextMigrate(s, c, t, d);
    FinishFirst(s, c);
  }

  lemma ReadyStep(s: State, c: nat, t: Tid, d: nat)
    requires c < |s.pc| && s.pc[c] == PullReady(t, d)
    ensures Finish(s, c) == Finish(SetCore(Move(s, t, Ready(Own(c))), c, d, None, PullUnlock), c)
  {
    NextReady(s, c, t, d);
    FinishFirst(s, c);
  }

  lemma UnlockStep(s: State, c: nat)
    requires c < |s.pc| && s.pc[c] == PullUnlock
    ensures Finish(s, c) == SetCore(s, c, c, None, Rest)
  {
    assert Finish(s, c) == Finish(SetCore(s, c, c, None, Rest), c);
  }

  /** Core `c` with both core locks taken for the move of `t` from `d`. */
  function BothLocked(s: State, c: nat, t: Tid, d: nat): State
    requires c < |s.pc| == |s.coreLock| && d < |s.pc|
  {
    s.(coreLock := s.coreLock[c := Some(c)][d := Some(c)], pc := s.pc[c := PullMigrate(t, d)])
  }

  lemma LocksBothAlone(s: State, c: nat, t: Tid, d: nat)
    requires c < |s.pc| == |s.coreLock| && d < |s.pc| && d != c && s.coreLock[c] == s.coreLock[d] == None
    requires s.pc[c] == PullLow(t, d)
    ensures Finish(s, c) == Finish(BothLocked(s, c, t, d), c)
  {
    NextLow(s, c, t, d);
    FinishFirst(s, c);
    var s1 := SetCore(s, c, Min(c, d), Some(c), PullHigh(t, d));
    NextHigh(s1, c, t, d);
    FinishFirst(s1, c);
    assert s1.coreLock[Max(c, d) := Some(c)] == s.coreLock[c := Some(c)][d := Some(c)];
    assert s1.pc[c := PullMigrate(t, d)] == s.pc[c := PullMigrate(t, d)];
  }

  lemma MovesAlone(s: State, c: nat, t: Tid, d: nat)
    requires c < |s.pc| == |s.coreLock| && d < |s.pc| && s.pc[c] == PullMigrate(t, d)
    ensures Finish(s, c) ==
            s.(fw := ChangeState(ChangeState(s.fw, t, Migrating(c)), t, Ready(Own(c))),
               coreLock := s.coreLock[d := None][c := None], pc := s.pc[c := Rest])
  {
    MigrateStep(s, c, t, d);
    var s3 := Goto(Move(s, t, Migrating(c)), c, PullReady(t, d));
    ReadyStep(s3, c, t, d);
    UnlockStep(SetCore(Move(s3, t, Ready(Own(c))), c, d, None, PullUnlock), c);
  }

  lemma BothUnlocked(s: State, c: nat, t: Tid, d: nat)
    requires c < |s.pc| == |s.coreLock| && d < |s.pc| && s.coreLock[c] == s.coreLock[d] == None
    ensures BothLocked(s, c, t, d).coreLock[d := None][c := None] == s.coreLock
    ensures BothLocked(s, c, t, d).pc[c := Rest] == s.pc[c := Rest]
  {
  }

  lemma RemoteAlone(s: State, c: nat, t: Tid, d: nat)
    requires Shaped(s, c) && d < |s.pc| && d != c && s.pc[c] == PullLow(t, d)
    ensures var n := Finish(s, c);
            && n.rqLock == None && n.coreLock == s.coreLock && n.pc == s.pc[c := Rest]
            && n.fw == ChangeState(ChangeState(s.fw, t, Migrating(c)), t, Ready(Own(c)))
  {
    assert s.coreLock[c] in s.coreLock && s.coreLock[d] in s.coreLock;
    BothUnlocked(s, c, t, d);
    LocksBothAlone(s, c, t, d);
    MovesAlone(BothLocked(s, c, t, d), c, t, d);
  }

  lemma NewlyIdleAlone(s: State, c: nat)
    requires Shaped(s, c) && s.pc[c] == Rest && (s.fw.shared != [] ==> CpuOf(s.fw, s.fw.shared[0]) < |s.pc|)
    ensures var n := Finish(Goto(s, c, PullLock), c);
            n.rqLock == None && n.coreLock == s.coreLock && n.pc == s.pc && n.fw == Pulled(s.fw, c)
  {
    var s0 := Goto(s, c, PullLock);
    var s1 := TakeRq(s0, c, PullTake);
    assert Finish(s0, c) == Finish(s1, c);
    var s2 := Next(s1, c);
    assert Finish(s1, c) == Finish(s2, c);
    assert s.pc[c := Rest] == s.pc;
    if s.fw.shared != [] {
      var t := s.fw.shared[0];
      if CpuOf(s.fw, t) == c {
        assert Finish(s2, c) == Next(s2, c);
      } else {
        RemoteAlone(s2, c, t, CpuOf(s.fw, t));
      }
    }
  }

  // ---------------------------------------------------------------- what each event does, run alone

  /** Nothing but the framework's records and the ledger has changed: all locks free, all cores where they were. */
  ghost predicate Calm(s: State, n: State) {
    n.rqLock == None && n.coreLock == s.coreLock && n.pc == s.pc
  }

  /** A state in which core `c` may begin a handler and finish it undisturbed. */
  ghost predicate MayBegin(s: State, e: Event) {
    Inv(s) && Shaped(s, e.c) && !e.Advance? && Enabled(s, e)
  }

  function Done(s: State, e: Event): State
    requires Enabled(s, e)
  {
    Finish(Step(s, e), e.c)
  }

  /** A core that has a task in its hands makes it its own. */
  lemma HandedOn(f: Fw, t: Tid, c: nat)
    requires t in f.place && f.place[t].Held?
    ensures var g := ChangeState(f, t, Migrating(c));
            && g.shared == f.shared && g.own == f.own && g.current == f.current
            && g.place == f.place[t := Migrating(c)] && g.cpu == f.cpu[t := c]
  {
    var g := ChangeState(f, t, Migrating(c));
    assert g.own == f.own && g.current == f.current;
  }

  lemma PulledMeans(f: Fw, c: nat)
    requires Sound(f) && c < |f.own|
    ensures PulledHere(f, Pulled(f, c), c)
  {
    if f.shared != [] {
      var t := f.shared[0];
      assert t in f.shared && QueueOk(f.place, f.shared, Ready(Shared));
      HeadComesBy(f, t, Held(c), c);
      var g := ChangeState(f, t, Held(c));
      if f.cpu[t] == c {
        JoinsHere(g, t, c);
        assert f.cpu[t := c] == f.cpu;
      } else {
        HandedOn(g, t, c);
        JoinsHere(ChangeState(g, t, Migrating(c)), t, c);
      }
    }
  }

  /**
   The running task's quantum is over: it waits in its core's queue if that was empty, and at the
   tail of the global queue otherwise.
   */
  ghost predicate QuantumOver(f: Fw, g: Fw, c: nat, t: Tid)
    requires c < |f.own| == |f.current|
  {
    && (f.own[c] == [] ==>
          && g.own == f.own[c := [t]] && g.shared == f.shared
          && g.place == f.place[t := Ready(Own(c))])
    && (f.own[c] != [] ==>
          && g.own == f.own && g.shared == f.shared + [t]
          && g.place == f.place[t := Ready(Shared)])
    && g.current == f.current[c := None] && g.cpu == f.cpu
  }

  lemma StopsRunning(f: Fw, c: nat)
    requires Wf(f) && c < |f.own| && f.current[c].Some?
    ensures f.current[c].value in f.place && f.place[f.current[c].value] == Running(c)
    ensures NotRunning(f.current, f.current[c].value) == f.current[c := None]
  {
    var t := f.current[c].value;
    forall d: nat | d < |f.current| ensures f.current[d] == Some(t) <==> f.place[t] == Running(d) {
      assert SlotOk(f.place, f.current[c], c) && SlotOk(f.place, f.current[d], d);
    }
  }

  lemma TickedMeans(f: Fw, c: nat, t: Tid)
    requires Wf(f) && c < |f.own| && f.current[c] == Some(t)
    ensures QuantumOver(f, Ticked(f, c, t), c, t)
  {
    StopsRunning(f, c);
    var g := Ticked(f, c, t);
    if f.own[c] == [] {
      CurrentMoved(f, t, Ready(Own(c)));
      assert [] + [t] == [t];
      assert g.own == f.own[c := [t]];
    } else {
      QueuedLastMeans(f, t);
    }
  }

  lemma InvSound(s: State)
    requires Inv(s)
    ensures Sound(s.fw)
  {
    forall t | t in s.fw.place ensures t in s.fw.cpu && s.fw.cpu[t] < |s.fw.own| {
      assert TaskOk(s.fw, s.pc, t);
    }
  }

  /** Schedule starts the head of the core's local queue, or else its own task at the global head. */
  lemma ScheduleEvent(s: State, c: nat)
    requires MayBegin(s, Schedule(c))
    ensures Calm(s, Done(s, Schedule(c))) && StartedHere(s.fw, Done(s, Schedule(c)).fw, c)
  {
    ScheduleAlone(s, c);
    InvSound(s);
    PickedMeans(s.fw, c);
  }

  /** Newly idle, or load balancing, brings the global head to the tail of the core's local queue. */
  lemma NewlyIdleEvent(s: State, c: nat)
    requires MayBegin(s, NewlyIdle(c))
    ensures Calm(s, Done(s, NewlyIdle(c))) && PulledHere(s.fw, Done(s, NewlyIdle(c)).fw, c)
  {
    InvSound(s);
    if s.fw.shared != [] {
      assert s.fw.shared[0] in s.fw.shared && QueueOk(s.fw.place, s.fw.shared, Ready(Shared));
    }
    NewlyIdleAlone(s, c);
    PulledMeans(s.fw, c);
  }

  /** The end of the quantum: the running task stays if nothing waits on its core, and leaves otherwise. */
  lemma QuantumEndEvent(s: State, c: nat)
    requires MayBegin(s, QuantumEnd(c))
    ensures Calm(s, Done(s, QuantumEnd(c)))
    ensures QuantumOver(s.fw, Done(s, QuantumEnd(c)).fw, c, s.fw.current[c].value)
  {
    TickAlone(s, c, s.fw.current[c].value);
    TickedMeans(s.fw, c, s.fw.current[c].value);
  }

  /** Yield sends the running task to the tail of the global queue. */
  lemma YieldEvent(s: State, c: nat)
    requires MayBegin(s, Yield(c))
    ensures Calm(s, Done(s, Yield(c))) && QueuedLast(s.fw, Done(s, Yield(c)).fw, s.fw.current[c].value)
  {
    StopsRunning(s.fw, c);
    PutAlone(s, c, s.fw.current[c].value);
    QueuedLastMeans(s.fw, s.fw.current[c].value);
  }

  /** A new task goes to the tail of the global queue, on its CPU. */
  lemma NewEvent(s: State, c: nat, t: Tid, cpu: nat)
    requires MayBegin(s, New(c, t, cpu))
    ensures Calm(s, Done(s, New(c, t, cpu))) && BornLast(s.fw, Done(s, New(c, t, cpu)).fw, t, cpu)
  {
    PutAlone(s.(fw := Create(s.fw, t, cpu)), c, t);
    BornLastMeans(s.fw, t, cpu);
  }

  /** A task that wakes goes to the tail of the global queue. */
  lemma UnblockEvent(s: State, c: nat, t: Tid)
    requires MayBegin(s, Unblock(c, t))
    ensures Calm(s, Done(s, Unblock(c, t))) && QueuedLast(s.fw, Done(s, Unblock(c, t)).fw, t)
  {
    PutAlone(Move(s, t, NotQueued), c, t);
    Wakes(s.fw, t);
    ChangeStateWf(s.fw, t, NotQueued);
    QueuedLastMeans(ChangeState(s.fw, t, NotQueued), t);
  }

  /** Block takes the running task off its core, terminate takes it off and ends it. */
  lemma BlockCurrentEvent(s: State, c: nat)
    requires MayBegin(s, BlockCurrent(c))
    ensures Calm(s, Done(s, BlockCurrent(c)))
    ensures TakenAway(s.fw, Done(s, BlockCurrent(c)).fw, s.fw.current[c].value, Blocked)
  {
    StopsRunning(s.fw, c);
    BlockAlone(s, c, s.fw.current[c].value);
    TakenAwayMeans(s.fw, s.fw.current[c].value, Blocked);
  }

  lemma NextEnd(s: State, c: nat, t: Tid)
    requires c < |s.pc| && s.pc[c] == End(t)
    ensures CanAdvance(s, c) && Next(s, c) == Goto(Move(s, t, Terminated), c, Rest)
  {
  }

  lemma EndAlone(s: State, c: nat, t: Tid)
    requires Shaped(s, c) && s.pc[c] == Rest
    ensures Calm(s, Finish(Goto(s, c, End(t)), c))
    ensures Finish(Goto(s, c, End(t)), c).fw == ChangeState(s.fw, t, Terminated)
  {
    NextEnd(Goto(s, c, End(t)), c, t);
    FinishFirst(Goto(s, c, End(t)), c);
    assert s.pc[c := End(t)][c := Rest] == s.pc;
  }

  lemma TerminateCurrentEvent(s: State, c: nat)
    requires MayBegin(s, TerminateCurrent(c))
    ensures Calm(s, Done(s, TerminateCurrent(c)))
    ensures TakenAway(s.fw, Done(s, TerminateCurrent(c)).fw, s.fw.current[c].value, Terminated)
  {
    StopsRunning(s.fw, c);
    EndAlone(s, c, s.fw.current[c].value);
    TakenAwayMeans(s.fw, s.fw.current[c].value, Terminated);
  }

  lemma TerminateBlockedEvent(s: State, c: nat, t: Tid)
    requires MayBegin(s, TerminateBlocked(c, t))
    ensures Calm(s, Done(s, TerminateBlocked(c, t)))
    ensures TakenAway(s.fw, Done(s, TerminateBlocked(c, t)).fw, t, Terminated)
  {
    EndAlone(s, c, t);
    TakenAwayMeans(s.fw, t, Terminated);
  }

  /** Block of a waiting task takes it out of the global queue, wherever it stands. */
  lemma BlockQueuedEvent(s: State, c: nat, t: Tid)
    requires MayBegin(s, BlockQueued(c, t))
    ensures Calm(s, Done(s, BlockQueued(c, t))) && TakenAway(s.fw, Done(s, BlockQueued(c, t)).fw, t, Blocked)
  {
    FinishFirst(Step(s, BlockQueued(c, t)), c);
    assert s.pc[c := Block(t)][c := Rest] == s.pc;
    TakenAwayMeans(s.fw, t, Blocked);
  }

  /** Terminate of a waiting task too, in one step, whoever holds the global lock. */
  lemma TerminateQueuedEvent(s: State, c: nat, t: Tid)
    requires Inv(s) && Enabled(s, TerminateQueued(c, t))
    ensures var n := Step(s, TerminateQueued(c, t));
            && n.rqLock == s.rqLock && n.coreLock == s.coreLock && n.pc == s.pc
            && TakenAway(s.fw, n.fw, t, Terminated)
  {
    assert QueueOk(s.fw.place, s.fw.shared, Ready(Shared));
    TakenAwayMeans(s.fw, t, Terminated);
  }

  /** Still idle, with a task in the global queue only: the pull and a second schedule start that task. */
  lemma PullThenSchedule(a: State, c: nat)
    requires MayBegin(a, Schedule(c)) && a.fw.own[c] == [] && a.fw.shared != []
    ensures Enabled(a, NewlyIdle(c)) && Enabled(Done(a, NewlyIdle(c)), Schedule(c))
    ensures var z := Done(Done(a, NewlyIdle(c)), Schedule(c));
            c < |z.fw.current| && z.fw.current[c] == Some(a.fw.shared[0])
  {
    NewlyIdleEvent(a, c);
    var b := Done(a, NewlyIdle(c));
    StepKeeps(a, NewlyIdle(c));
    FinishKeeps(Step(a, NewlyIdle(c)), c);
    ScheduleEvent(b, c);
  }

  /**
   A core that waits for no lock gets a task: schedule, then newly_idle if it is still idle, then
   schedule.  It is the local head, or else the global head.
   */
  lemma IdleCoreGetsTask(s: State, c: nat)
    requires MayBegin(s, Schedule(c)) && (s.fw.own[c] != [] || s.fw.shared != [])
    ensures var a := Done(s, Schedule(c));
            && c < |a.fw.current|
            && (a.fw.current[c] == None ==>
                  && Enabled(a, NewlyIdle(c)) && Enabled(Done(a, NewlyIdle(c)), Schedule(c))
                  && var z := Done(Done(a, NewlyIdle(c)), Schedule(c));
                     s.fw.shared != [] && c < |z.fw.current| && z.fw.current[c] == Some(s.fw.shared[0]))
            && (s.fw.own[c] != [] ==> a.fw.current[c] == Some(s.fw.own[c][0]))
  {
    ScheduleEvent(s, c);
    StepKeeps(s, Schedule(c));
    FinishKeeps(Step(s, Schedule(c)), c);
    var a := Done(s, Schedule(c));
    if a.fw.current[c] == None {
      PullThenSchedule(a, c);
    }
  }

  // ---------------------------------------------------------------- who touches which queue

  lemma OwnUntouched(s: State, c: nat, d: nat)
    requires Inv(s) && CanAdvance(s, c) && d < |s.pc| && d != c
    ensures d < |Next(s, c).fw.own| && Next(s, c).fw.own[d] == s.fw.own[d]
  {
    assert PcOk(s.fw, c, s.pc[c]);
    match s.pc[c]
    case PullTake => OwnUntouchedTake(s, c, d);
    case PullLocal(t) => OwnSame(s.fw, t, Ready(Own(c)), d);
    case PullMigrate(t, _) => OwnSame(s.fw, t, Migrating(c), d);
    case PullReady(t, _) => OwnSame(s.fw, t, Ready(Own(c)), d);
    case PickLocal => OwnUntouchedTake(s, c, d);
    case PickGlobal => OwnUntouchedTake(s, c, d);
    case Put(t) => OwnSame(s.fw, t, Ready(Shared), d);
    case Tick(t) => OwnSame(s.fw, t, Ready(Own(c)), d);
    case Block(t) => OwnSame(s.fw, t, Blocked, d);
    case End(t) => OwnSame(s.fw, t, Terminated, d);
    case _ =>
  }

  lemma OwnUntouchedTake(s: State, c: nat, d: nat)
    requires Inv(s) && CanAdvance(s, c) && d < |s.pc| && d != c
    requires s.pc[c].PickLocal? || s.pc[c].PickGlobal? || s.pc[c].PullTake?
    ensures d < |Next(s, c).fw.own| && Next(s, c).fw.own[d] == s.fw.own[d]
  {
    if s.pc[c].PickLocal? {
      if s.fw.own[c] != [] {
        OwnHead(s, c);
        OwnSame(s.fw, s.fw.own[c][0], Running(c), d);
      }
    } else if s.fw.shared != [] {
      SharedHead(s, c);
      OwnSame(s.fw, s.fw.shared[0], if s.pc[c].PickGlobal? then Running(c) else Held(c), d);
    }
  }

  lemma SharedUntouched(s: State, c: nat)
    requires Inv(s) && CanAdvance(s, c) && s.rqLock != Some(c)
    ensures Next(s, c).fw.shared == s.fw.shared
  {
    assert PcOk(s.fw, c, s.pc[c]) && !HoldsRq(s.pc[c]);
    if s.pc[c] == PickLocal && s.fw.own[c] != [] {
      OwnHead(s, c);
      SharedSame(s.fw, s.fw.own[c][0], Running(c));
    }
  }

  /**
   A step that changes the global queue is taken by the holder of its lock, but for the end of a
   waiting task, which takes none; one that changes a local queue is taken by that core itself,
   which is why those queues can do without a lock.
   */
  lemma QueuesGuarded(s: State, e: Event)
    requires Inv(s) && Enabled(s, e)
    ensures Step(s, e).fw.shared != s.fw.shared ==> (e.Advance? && s.rqLock == Some(e.c)) || e.TerminateQueued?
    ensures forall d: nat :: d < |s.pc| ==>
              d < |Step(s, e).fw.own| && (Step(s, e).fw.own[d] != s.fw.own[d] ==> e == Advance(d))
  {
    match e
    case Advance(c) => AdvanceGuarded(s, c);
    case Unblock(_, t) => OwnUnmoved(s.fw, t, NotQueued);
    case TerminateQueued(_, t) =>
      assert QueueOk(s.fw.place, s.fw.shared, Ready(Shared));
      OwnUnmoved(s.fw, t, Terminated);
    case _ =>
  }

  lemma AdvanceGuarded(s: State, c: nat)
    requires Inv(s) && CanAdvance(s, c)
    ensures Next(s, c).fw.shared != s.fw.shared ==> s.rqLock == Some(c)
    ensures forall d: nat :: d < |s.pc| ==>
              d < |Next(s, c).fw.own| && (Next(s, c).fw.own[d] != s.fw.own[d] ==> d == c)
  {
    if s.rqLock != Some(c) {
      SharedUntouched(s, c);
    }
    forall d: nat | d < |s.pc| ensures d < |Next(s, c).fw.own| && (Next(s, c).fw.own[d] != s.fw.own[d] ==> d == c) {
      if d != c {
        OwnUntouched(s, c, d);
      } else {
        OwnAdvance(s, c, d);
      }
    }
  }
}
