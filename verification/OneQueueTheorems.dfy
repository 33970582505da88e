/** What holds over whole runs of the one-queue protocol, whatever the interleaving. */
module OneQueueTheorems {
  import opened Queues
  import opened Framework
  import opened Ledgers
  import opened OneQueue
  import opened OneQueueProofs

  ghost predicate Run(s: State, es: seq<Event>)
    decreases |es|
  {
    es != [] ==> Enabled(s, es[0]) && Run(Step(s, es[0]), es[1..])
  }

  ghost function Exec(s: State, es: seq<Event>): State
    requires Run(s, es)
    decreases |es|
  {
    if es == [] then s else Exec(Step(s, es[0]), es[1..])
  }

  lemma BootInv(n: nat)
    ensures Inv(Boot(n))
  {
    var f := Boot(n).fw;
    assert QueueOk(f.place, f.shared, Ready(Shared));
    assert forall c: nat :: c < n ==> QueueOk(f.place, f.own[c], Ready(Own(c))) && SlotOk(f.place, f.current[c], c);
  }

  lemma {:induction false} RunKeeps(s: State, es: seq<Event>)
    requires Inv(s) && Run(s, es)
    ensures Inv(Exec(s, es))
    decreases |es|
  {
    if es != [] {
      StepKeeps(s, es[0]);
      RunKeeps(Step(s, es[0]), es[1..]);
    }
  }

  // ---------------------------------------------------------------- one place per task

  /** The task is in the global queue, or in one local queue, or runs on one core, or is in none of these. */
  ghost predicate InOnePlace(s: State, t: Tid)
    requires |s.pc| == |s.fw.own| == |s.fw.current|
  {
    && (t in s.fw.shared ==> forall c :: 0 <= c < |s.pc| ==> t !in s.fw.own[c] && s.fw.current[c] != Some(t))
    && (forall c, d :: 0 <= c < |s.pc| && 0 <= d < |s.pc| && t in s.fw.own[c] ==>
          s.fw.current[d] != Some(t) && (t in s.fw.own[d] ==> c == d))
    && (forall c, d :: 0 <= c < d < |s.pc| && s.fw.current[c] == Some(t) ==> s.fw.current[d] != Some(t))
    && (forall i, j :: 0 <= i < j < |s.fw.shared| ==> s.fw.shared[i] != s.fw.shared[j])
    && (forall c, i, j :: 0 <= c < |s.pc| && 0 <= i < j < |s.fw.own[c]| ==> s.fw.own[c][i] != s.fw.own[c][j])
  }

  lemma OnePlace(n: nat, es: seq<Event>, t: Tid)
    requires Run(Boot(n), es)
    ensures var s := Exec(Boot(n), es); |s.pc| == |s.fw.own| == |s.fw.current| && InOnePlace(s, t)
  {
    BootInv(n);
    RunKeeps(Boot(n), es);
    var s := Exec(Boot(n), es);
    assert forall c: nat :: c < |s.pc| ==>
        && QueueOk(s.fw.place, s.fw.own[c], Ready(Own(c)))
        && SlotOk(s.fw.place, s.fw.current[c], c);
    assert QueueOk(s.fw.place, s.fw.shared, Ready(Shared));
  }

  /** At most one task is between two cores, and the core that receives it holds the global lock. */
  lemma OneMigration(n: nat, es: seq<Event>, t: Tid, u: Tid, c: nat, d: nat)
    requires Run(Boot(n), es)
    requires var f := Exec(Boot(n), es).fw;
             t in f.place && u in f.place && f.place[t] == Migrating(c) && f.place[u] == Migrating(d)
    ensures t == u && c == d
    ensures Exec(Boot(n), es).rqLock == Some(c)
    ensures var f := Exec(Boot(n), es).fw; t in f.cpu && f.cpu[t] == c
  {
    BootInv(n);
    RunKeeps(Boot(n), es);
    var s := Exec(Boot(n), es);
    assert TaskOk(s.fw, s.pc, t) && TaskOk(s.fw, s.pc, u);
  }

  // ---------------------------------------------------------------- no deadlock

  /** A core that holds a core lock is never waiting. */
  lemma CoreHolderAdvances(s: State, d: nat)
    requires Inv(s) && d < |s.pc| && s.coreLock[d].Some?
    ensures CanAdvance(s, s.coreLock[d].value)
  {
    assert HeldCore(s.pc[s.coreLock[d].value], s.coreLock[d].value) == Some(d);
  }

  lemma WantedFits(s: State, c: nat)
    requires Inv(s) && c < |s.pc| && WantedCore(s.pc[c], c).Some?
    ensures WantedCore(s.pc[c], c).value < |s.coreLock|
  {
    assert PcOk(s.fw, c, s.pc[c]);
  }

  /** A core that needs no global lock, or finds it free, can go on, or the holder of the lock it wants can. */
  lemma CoreLocksResolve(s: State, c: nat) returns (d: nat)
    requires Inv(s) && c < |s.pc| && s.pc[c] != Rest && (WaitsRq(s.pc[c]) ==> s.rqLock == None)
    ensures CanAdvance(s, d)
  {
    d := c;
    if WantedCore(s.pc[c], c).Some? {
      WantedFits(s, c);
      var l := WantedCore(s.pc[c], c).value;
      if s.coreLock[l].Some? {
        CoreHolderAdvances(s, l);
        d := s.coreLock[l].value;
      }
    }
  }

  /** No reachable state is stuck: if some core is in a handler, some core in a handler can go on. */
  lemma NoDeadlock(s: State, c: nat) returns (d: nat)
    requires Inv(s) && c < |s.pc| && s.pc[c] != Rest
    ensures CanAdvance(s, d)
  {
    if WaitsRq(s.pc[c]) && s.rqLock.Some? {
      assert HoldsRq(s.pc[s.rqLock.value]);
      d := CoreLocksResolve(s, s.rqLock.value);
    } else {
      d := CoreLocksResolve(s, c);
    }
  }

  /** Who waits for the global lock holds no lock at all, who waits for a core lock holds no core lock. */
  ghost predicate InLockOrder(s: State, c: nat)
    requires c < |s.pc|
  {
    && (WaitsRq(s.pc[c]) ==> s.rqLock != Some(c) && Some(c) !in s.coreLock)
    && (WantedCore(s.pc[c], c).Some? ==> Some(c) !in s.coreLock)
  }

  lemma InvInLockOrder(s: State, c: nat)
    requires Inv(s) && c < |s.pc|
    ensures InLockOrder(s, c)
  {
    forall d: nat | d < |s.coreLock| && s.coreLock[d] == Some(c)
      ensures !WaitsRq(s.pc[c]) && WantedCore(s.pc[c], c) == None
    {
      assert HeldCore(s.pc[c], c) == Some(d);
    }
  }

  lemma LockOrder(n: nat, es: seq<Event>, c: nat)
    requires Run(Boot(n), es) && c < |Exec(Boot(n), es).pc|
    ensures InLockOrder(Exec(Boot(n), es), c)
  {
    BootInv(n);
    RunKeeps(Boot(n), es);
    InvInLockOrder(Exec(Boot(n), es), c);
  }

  // ---------------------------------------------------------------- no queue is touched without its lock

  lemma SharedGuarded(s: State, c: nat)
    requires Inv(s) && CanAdvance(s, c) && s.rqLock != Some(c)
    ensures Next(s, c).fw.shared == s.fw.shared
  {
    assert PcOk(s.fw, c, s.pc[c]);
    assert !HoldsRq(s.pc[c]);
    if s.pc[c] == PickLocal && s.fw.own[c] != [] {
      OwnHead(s, c);
      SharedSame(s.fw, s.fw.own[c][0], Running(c));
    }
  }

  lemma OwnGuarded(s: State, c: nat, d: nat)
    requires Inv(s) && CanAdvance(s, c) && d < |s.pc| && s.coreLock[d] != Some(c)
    ensures d < |Next(s, c).fw.own| && Next(s, c).fw.own[d] == s.fw.own[d]
  {
    assert PcOk(s.fw, c, s.pc[c]);
    assert HeldCore(s.pc[c], c) != Some(d);
    match s.pc[c]
    case PullLocalMove(t) => OwnSame(s.fw, t, Ready(Own(c)), d);
    case PullRemoteMove(t, _) => OwnSame(s.fw, t, Migrating(c), d);
    case PullHomeMove(t) => OwnSame(s.fw, t, Ready(Own(c)), d);
    case PickLocal => OwnGuardedPick(s, c, d);
    case PickGlobal => OwnGuardedPick(s, c, d);
    case Put(t) => OwnSame(s.fw, t, Ready(Shared), d);
    case Drop(t, to) => OwnSame(s.fw, t, to, d);
    case _ =>
  }

  lemma OwnGuardedPick(s: State, c: nat, d: nat)
    requires Inv(s) && CanAdvance(s, c) && d < |s.pc| && s.coreLock[d] != Some(c)
    requires s.pc[c].PickLocal? || s.pc[c].PickGlobal?
    ensures d < |Next(s, c).fw.own| && Next(s, c).fw.own[d] == s.fw.own[d]
  {
    assert HeldCore(s.pc[c], c) != Some(d);
    if s.pc[c].PickLocal? && s.fw.own[c] != [] {
      OwnHead(s, c);
      OwnSame(s.fw, s.fw.own[c][0], Running(c), d);
    } else if s.pc[c].PickGlobal? && s.fw.shared != [] {
      SharedHead(s, c);
      OwnSame(s.fw, s.fw.shared[0], Running(c), d);
    }
  }

  lemma OwnsGuarded(s: State, c: nat)
    requires Inv(s) && CanAdvance(s, c)
    ensures Next(s, c).fw.shared != s.fw.shared ==> s.rqLock == Some(c)
    ensures forall d: nat :: d < |s.pc| ==>
              && d < |Next(s, c).fw.own|
              && (Next(s, c).fw.own[d] != s.fw.own[d] ==> s.coreLock[d] == Some(c))
  {
    if s.rqLock != Some(c) {
      SharedGuarded(s, c);
    }
    forall d: nat | d < |s.pc|
      ensures d < |Next(s, c).fw.own| && (Next(s, c).fw.own[d] != s.fw.own[d] ==> s.coreLock[d] == Some(c))
    {
      if s.coreLock[d] != Some(c) {
        OwnGuarded(s, c, d);
      } else {
        OwnAdvance(s, c, d);
      }
    }
  }

  lemma WakeTouchesNoQueue(s: State, t: Tid)
    requires Inv(s) && t in s.fw.place && s.fw.place[t] == Blocked
    ensures ChangeState(s.fw, t, NotQueued).shared == s.fw.shared
    ensures ChangeState(s.fw, t, NotQueued).own == s.fw.own
  {
    OwnUnmoved(s.fw, t, NotQueued);
  }

  /**
   A step that changes the global queue is taken by the holder of its lock, and one that changes
   a local queue by the holder of that one's.
   */
  lemma QueuesGuarded(s: State, e: Event)
    requires Inv(s) && Enabled(s, e)
    ensures Step(s, e).fw.shared != s.fw.shared ==> e.Advance? && s.rqLock == Some(e.c)
    ensures forall d: nat :: d < |s.pc| ==>
              && d < |Step(s, e).fw.own|
              && (Step(s, e).fw.own[d] != s.fw.own[d] ==> e.Advance? && s.coreLock[d] == Some(e.c))
  {
    match e
    case Advance(c) => OwnsGuarded(s, c);
    case Unblock(_, t, _) => WakeTouchesNoQueue(s, t);
    case _ =>
  }

  /** The most steps a handler still needs. */
  function Left(pc: Pc): nat {
    match pc
    case Rest => 0
    case PullLock => 7
    case PullLook => 6
    case PullRemoteLock(_, _) => 5
    case PullRemoteMove(_, _) => 4
    case PullHomeLock(_) => 3
    case PullLocalLock(_) => 3
    case PullHomeMove(_) => 2
    case PullLocalMove(_) => 2
    case PullUnlock => 1
    case PickLock => 4
    case PickLocal => 3
    case PickGlobalLock => 2
    case PickGlobal => 1
    case SelectLock(_, _) => 4
    case Select(_, _) => 3
    case PutLock(_) => 2
    case Put(_) => 1
    case DropLock(_, _) => 2
    case Drop(_, _) => 1
  }

  /** The steps all handlers still need at most. */
  function Work(pcs: seq<Pc>): nat {
    Sum(seq(|pcs|, c requires 0 <= c < |pcs| => Left(pcs[c])))
  }

  lemma WorkUpdate(pcs: seq<Pc>, c: nat, pc: Pc)
    requires c < |pcs|
    ensures Work(pcs[c := pc]) == Work(pcs) - Left(pcs[c]) + Left(pc)
  {
    var lefts := seq(|pcs|, d requires 0 <= d < |pcs| => Left(pcs[d]));
    SumUpdate(lefts, c, Left(pc));
    assert lefts[c := Left(pc)] == seq(|pcs|, d requires 0 <= d < |pcs| => Left(pcs[c := pc][d]));
  }

  lemma LeftDrops(s: State, c: nat)
    requires CanAdvance(s, c)
    ensures |Next(s, c).pc| == |s.pc|
    ensures Next(s, c).pc == s.pc[c := Next(s, c).pc[c]]
    ensures Left(Next(s, c).pc[c]) < Left(s.pc[c])
  {
  }

  lemma AdvanceWorks(s: State, c: nat)
    requires CanAdvance(s, c)
    ensures Work(Next(s, c).pc) < Work(s.pc)
  {
    LeftDrops(s, c);
    WorkUpdate(s.pc, c, Next(s, c).pc[c]);
  }

  /** Handlers finish: from a state with `Work` steps left no interleaving without new events is longer. */
  lemma {:induction false} HandlersFinish(s: State, es: seq<Event>)
    requires Inv(s) && Run(s, es) && forall e <- es :: e.Advance?
    ensures |es| + Work(Exec(s, es).pc) <= Work(s.pc)
    decreases |es|
  {
    if es != [] {
      assert es[0] in es;
      AdvanceWorks(s, es[0].c);
      StepKeeps(s, es[0]);
      HandlersFinish(Step(s, es[0]), es[1..]);
    }
  }

  /** And an interleaving that cannot be continued has finished them all. */
  lemma FinishedMeansRest(s: State)
    requires Inv(s) && forall d: nat :: !CanAdvance(s, d)
    ensures forall pc <- s.pc :: pc == Rest
  {
    forall c: nat | c < |s.pc| ensures s.pc[c] == Rest {
      if s.pc[c] != Rest {
        var d := NoDeadlock(s, c);
      }
    }
  }

  // ---------------------------------------------------------------- global order

  /** What a step may do to the global queue, with the ledger recording exactly that. */
  ghost predicate SharedMoves(f: Fw, l: Ledger, g: Fw, m: Ledger, c: nat) {
    || (g.shared == f.shared && m == l)
    || (exists t :: g.shared == f.shared + [t] && m == Arrive(l, t))
    || (&& f.shared != [] && g.shared == f.shared[1..] && m == Leave(l)
        && PlaceOf(g, f.shared[0]) in {Running(c), Migrating(c), Ready(Own(c))})
    || (exists k :: && 0 <= k < |f.shared| && g.shared == f.shared[..k] + f.shared[k + 1..]
                    && m == Withdraw(l, k) && PlaceOf(g, f.shared[k]) in {Blocked, Terminated})
  }

  lemma HeadLeaves(s: State, c: nat, to: Place)
    requires Inv(s) && c < |s.pc| && HoldsRq(s.pc[c]) && s.fw.shared != []
    requires to in {Running(c), Migrating(c), Ready(Own(c))}
    ensures SharedMoves(s.fw, s.log, ChangeState(s.fw, s.fw.shared[0], to), Leave(s.log), c)
  {
    SharedHead(s, c);
  }

  lemma Dropped(s: State, c: nat, t: Tid, to: Place)
    requires Inv(s) && t in s.fw.shared && to in {Blocked, Terminated}
    ensures SharedMoves(s.fw, s.log, ChangeState(s.fw, t, to), Withdraw(s.log, IndexOf(s.fw.shared, t)), c)
  {
    WithoutAt(s.fw.shared, IndexOf(s.fw.shared, t));
    assert t in s.fw.place && s.fw.place[t] == Ready(Shared);
  }

  /** Every step moves the global queue by at most one arrival, one departure at the head, or one drop. */
  lemma SharedStep(s: State, e: Event)
    requires Inv(s) && Enabled(s, e)
    ensures SharedMoves(s.fw, s.log, Step(s, e).fw, Step(s, e).log, e.c)
  {
    if e.Advance? {
      SharedNext(s, e.c);
    }
  }

  lemma SharedPick(s: State, c: nat)
    requires Inv(s) && CanAdvance(s, c) && (s.pc[c].PickLocal? || s.pc[c].PickGlobal?)
    ensures SharedMoves(s.fw, s.log, Next(s, c).fw, Next(s, c).log, c)
  {
    if s.pc[c].PickLocal? && s.fw.own[c] != [] {
      OwnHead(s, c);
    } else if s.pc[c].PickGlobal? && s.fw.shared != [] {
      HeadLeaves(s, c, Running(c));
    }
  }

  lemma SharedDrop(s: State, c: nat, t: Tid, to: Place)
    requires Inv(s) && CanAdvance(s, c) && s.pc[c] == Drop(t, to)
    ensures SharedMoves(s.fw, s.log, Next(s, c).fw, Next(s, c).log, c)
  {
    assert PcOk(s.fw, c, s.pc[c]);
    if t in s.fw.shared {
      Dropped(s, c, t, to);
    } else {
      assert QueueOk(s.fw.place, s.fw.shared, Ready(Shared));
    }
  }

  lemma SharedNext(s: State, c: nat)
    requires Inv(s) && CanAdvance(s, c)
    ensures SharedMoves(s.fw, s.log, Next(s, c).fw, Next(s, c).log, c)
  {
    assert PcOk(s.fw, c, s.pc[c]);
    match s.pc[c]
    case PullLocalMove(t) => HeadLeaves(s, c, Ready(Own(c)));
    case PullRemoteMove(t, d) => HeadLeaves(s, c, Migrating(c));
    case PullHomeMove(t) =>
    case PickLocal => SharedPick(s, c);
    case PickGlobal => SharedPick(s, c);
    case Put(t) =>
    case Drop(t, to) => SharedDrop(s, c, t, to);
    case _ =>
  }

  /**
   Over any run, the tasks that left the global queue and those still in it are all arrivals, in
   order, less the dropped.
   */
  lemma GlobalFifo(n: nat, es: seq<Event>)
    requires Run(Boot(n), es)
    ensures var l := Exec(Boot(n), es).log;
            && l.left + l.waiting == Survivors(|l.arrived|, l.dropped)
            && |l.waiting| == |Exec(Boot(n), es).fw.shared|
            && (forall i :: 0 <= i < |l.waiting| ==>
                  l.waiting[i] < |l.arrived| && l.arrived[l.waiting[i]] == Exec(Boot(n), es).fw.shared[i])
  {
    BootInv(n);
    RunKeeps(Boot(n), es);
  }

  lemma StepFollows(s: State, e: Event)
    requires Inv(s) && Enabled(s, e)
    ensures Follows(s.log, Step(s, e).log)
  {
    SharedStep(s, e);
  }

  lemma {:induction false} TurnsKept(s: State, es: seq<Event>, ticket: nat, turn: nat)
    requires Inv(s) && Run(s, es) && InTurn(s.log, ticket, turn)
    ensures InTurn(Exec(s, es).log, ticket, turn)
    decreases |es|
  {
    if es != [] {
      StepFollows(s, es[0]);
      TurnKept(s.log, Step(s, es[0]).log, ticket, turn);
      StepKeeps(s, es[0]);
      TurnsKept(Step(s, es[0]), es[1..], ticket, turn);
    }
  }

  /**
   Bounded waiting for the global queue: a task at position `k` is among the next k+1 to leave
   it, once so many have left, unless it was dropped.
   */
  lemma BoundedWaiting(s: State, es: seq<Event>, k: nat)
    requires Inv(s) && Run(s, es) && k < |s.fw.shared|
    requires |Exec(s, es).log.left| > |s.log.left| + k
    ensures var l := Exec(s, es).log;
            var ticket := s.log.waiting[k];
            && ticket < |s.log.arrived| && s.log.arrived[ticket] == s.fw.shared[k]
            && (ticket in l.dropped || ticket in l.left[..|s.log.left| + k + 1])
  {
    var ticket := s.log.waiting[k];
    assert InTurn(s.log, ticket, |s.log.left| + k + 1);
    TurnsKept(s, es, ticket, |s.log.left| + k + 1);
    TurnComes(Exec(s, es).log, ticket, |s.log.left| + k + 1);
  }

  // ---------------------------------------------------------------- a pull is a reservation

  /** Steps of `fifo_schedule` on core `c` that look at its local queue. */
  predicate Looks(s: State, e: Event, c: nat) {
    e == Advance(c) && c < |s.pc| && s.pc[c] == PickLocal
  }

  lemma OwnNextPull(s: State, d: nat, c: nat)
    requires Inv(s) && CanAdvance(s, d) && c < |s.pc|
    requires s.pc[d].PullLocalMove? || s.pc[d].PullRemoteMove? || s.pc[d].PullHomeMove?
    ensures c < |Next(s, d).fw.own| && s.fw.own[c] <= Next(s, d).fw.own[c]
  {
    assert PcOk(s.fw, d, s.pc[d]);
    match s.pc[d]
    case PullLocalMove(t) => OwnGrows(s.fw, t, Ready(Own(d)), c);
    case PullRemoteMove(t, _) => OwnGrows(s.fw, t, Migrating(d), c);
    case PullHomeMove(t) => OwnGrows(s.fw, t, Ready(Own(d)), c);
  }

  lemma OwnNextPick(s: State, d: nat, c: nat)
    requires Inv(s) && CanAdvance(s, d) && c < |s.pc| && (s.pc[d].PickLocal? || s.pc[d].PickGlobal?)
    requires !(s.pc[d] == PickLocal && d == c && s.fw.own[c] != [])
    ensures c < |Next(s, d).fw.own| && s.fw.own[c] <= Next(s, d).fw.own[c]
  {
    if s.pc[d].PickLocal? {
      if s.fw.own[d] != [] {
        OwnHead(s, d);
        OwnGrows(s.fw, s.fw.own[d][0], Running(d), c);
      }
    } else if s.fw.shared != [] {
      SharedHead(s, d);
      OwnGrows(s.fw, s.fw.shared[0], Running(d), c);
    }
  }

  lemma OwnNextPut(s: State, d: nat, c: nat)
    requires Inv(s) && CanAdvance(s, d) && c < |s.pc| && (s.pc[d].Put? || s.pc[d].Drop?)
    ensures c < |Next(s, d).fw.own| && s.fw.own[c] <= Next(s, d).fw.own[c]
  {
    assert PcOk(s.fw, d, s.pc[d]);
    match s.pc[d]
    case Put(t) => OwnGrows(s.fw, t, Ready(Shared), c);
    case Drop(t, to) => OwnGrows(s.fw, t, to, c);
  }

  lemma OwnNext(s: State, d: nat, c: nat)
    requires Inv(s) && CanAdvance(s, d) && c < |s.pc| && !(s.pc[d] == PickLocal && d == c && s.fw.own[c] != [])
    ensures c < |Next(s, d).fw.own| && s.fw.own[c] <= Next(s, d).fw.own[c]
  {
    var pc := s.pc[d];
    if pc.PullLocalMove? || pc.PullRemoteMove? || pc.PullHomeMove? {
      OwnNextPull(s, d, c);
    } else if pc.PickLocal? || pc.PickGlobal? {
      OwnNextPick(s, d, c);
    } else if pc.Put? || pc.Drop? {
      OwnNextPut(s, d, c);
    }
  }

  lemma OwnAdvance(s: State, d: nat, c: nat)
    requires Inv(s) && CanAdvance(s, d) && c < |s.pc|
    ensures var q, n := s.fw.own[c], Next(s, d).fw;
            && c < |n.own| == |n.current|
            && (Looks(s, Advance(d), c) && q != [] ==> n.own[c] == q[1..] && n.current[c] == Some(q[0]))
            && (!(Looks(s, Advance(d), c) && q != []) ==> q <= n.own[c])
  {
    NextKeeps(s, d);
    if Looks(s, Advance(d), c) && s.fw.own[c] != [] {
      OwnTaken(s.fw, c);
    } else {
      OwnNext(s, d, c);
    }
  }

  /** Only a schedule of core `c` takes from its local queue, it takes the head, and it starts it. */
  lemma OwnStep(s: State, e: Event, c: nat)
    requires Inv(s) && Enabled(s, e) && c < |s.pc|
    ensures var q, n := s.fw.own[c], Step(s, e).fw;
            && c < |n.own| == |n.current|
            && (Looks(s, e, c) && q != [] ==> n.own[c] == q[1..] && n.current[c] == Some(q[0]))
            && (!(Looks(s, e, c) && q != []) ==> q <= n.own[c])
  {
    match e
    case Advance(d) => OwnAdvance(s, d, c);
    case Unblock(_, t, _) => OwnGrows(s.fw, t, NotQueued, c);
    case _ =>
  }

  /** How many times core `c` looks at its local queue in a run. */
  ghost function LooksIn(s: State, es: seq<Event>, c: nat): nat
    requires Run(s, es)
    decreases |es|
  {
    if es == [] then 0
    else (if Looks(s, es[0], c) then 1 else 0) + LooksIn(Step(s, es[0]), es[1..], c)
  }

  ghost predicate StartedOn(s: State, es: seq<Event>, t: Tid, c: nat)
    requires Run(s, es)
    decreases |es|
  {
    || (c < |s.fw.current| && s.fw.current[c] == Some(t))
    || (es != [] && StartedOn(Step(s, es[0]), es[1..], t, c))
  }

  /**
   A task at position `k` of a local queue is started there by the core's k+1 next schedules,
   whatever the others do.
   */
  lemma {:induction false} Reservation(s: State, es: seq<Event>, c: nat, k: nat)
    requires Inv(s) && Run(s, es) && c < |s.pc| && k < |s.fw.own[c]|
    requires LooksIn(s, es, c) > k
    ensures StartedOn(s, es, s.fw.own[c][k], c)
    ensures s.fw.own[c][k] in s.fw.cpu && s.fw.cpu[s.fw.own[c][k]] == c
    decreases |es|
  {
    var t := s.fw.own[c][k];
    assert t in s.fw.own[c] && QueueOk(s.fw.place, s.fw.own[c], Ready(Own(c)));
    assert TaskOk(s.fw, s.pc, t);
    var n := Step(s, es[0]);
    StepKeeps(s, es[0]);
    OwnStep(s, es[0], c);
    if Looks(s, es[0], c) {
      if k > 0 {
        Reservation(n, es[1..], c, k - 1);
      } else {
        assert StartedOn(n, es[1..], t, c);
      }
    } else {
      Reservation(n, es[1..], c, k);
    }
  }

  // ---------------------------------------------------------------- one handler, run alone

  /** Core `c` goes on by itself until its handler is done. */
  function Finish(s: State, c: nat): State
    decreases if c < |s.pc| then Left(s.pc[c]) else 0
  {
    if CanAdvance(s, c) then
      LeftDrops(s, c);
      Finish(Next(s, c), c)
    else s
  }

  /** A handler that runs alone to its end keeps the invariant too. */
  lemma {:induction false} FinishKeeps(s: State, c: nat)
    requires Inv(s)
    ensures Inv(Finish(s, c))
    decreases if c < |s.pc| then Left(s.pc[c]) else 0
  {
    if CanAdvance(s, c) {
      LeftDrops(s, c);
      NextKeeps(s, c);
      FinishKeeps(Next(s, c), c);
    }
  }

  predicate Shaped(s: State, c: nat) {
    && c < |s.pc| == |s.coreLock| == |s.fw.own| == |s.fw.current|
    && s.rqLock == None && forall l <- s.coreLock :: l == None
  }

  lemma PickGlobalAlone(s: State, c: nat)
    requires Shaped(s, c) && s.pc[c] == PickGlobalLock
    ensures var n := Finish(s, c);
            && n.rqLock == None && n.coreLock == s.coreLock && n.pc == s.pc[c := Rest]
            && n.fw == if s.fw.shared != [] && CpuOf(s.fw, s.fw.shared[0]) == c
                       then ChangeState(s.fw, s.fw.shared[0], Running(c)) else s.fw
  {
    NextPick(s, c);
    FinishFirst(s, c);
    FinishFirst(TakeRq(s, c, PickGlobal), c);
  }

  lemma NextPick(s: State, c: nat)
    requires c < |s.pc| && s.pc[c] == PickGlobalLock && s.rqLock == None
    ensures CanAdvance(s, c) && Next(s, c) == TakeRq(s, c, PickGlobal)
  {
  }

  /** The global head, moved to this core if it belongs to another, waits in this core's queue. */
  function Pulled(f: Fw, c: nat): Fw {
    if f.shared == [] then f
    else if CpuOf(f, f.shared[0]) == c then ChangeState(f, f.shared[0], Ready(Own(c)))
    else ChangeState(ChangeState(f, f.shared[0], Migrating(c)), f.shared[0], Ready(Own(c)))
  }

  /** fifo_schedule run alone starts the local head, else the global head if it belongs to this core. */
  lemma ScheduleAlone(s: State, c: nat)
    requires Shaped(s, c) && s.pc[c] == Rest
    ensures var n := Finish(Goto(s, c, PickLock), c);
            && n.rqLock == None && n.coreLock == s.coreLock && n.pc == s.pc
            && n.fw == Picked(s.fw, c)
  {
    assert s.coreLock[c] in s.coreLock;
    var s0 := Goto(s, c, PickLock);
    var s1 := Next(s0, c);
    assert Finish(s0, c) == Finish(s1, c);
    var s2 := Next(s1, c);
    assert Finish(s1, c) == Finish(s2, c);
    assert s2.coreLock == s.coreLock;
    if s.fw.own[c] == [] {
      PickGlobalAlone(s2, c);
    }
    assert s.pc[c := Rest] == s.pc;
  }

  /** fifo_enqueue_lock run alone puts the task at the tail of the global queue. */
  lemma EnqueueAlone(s: State, c: nat, t: Tid)
    requires Shaped(s, c) && s.pc[c] == Rest
    ensures var n := Finish(Goto(s, c, PutLock(t)), c);
            && n.rqLock == None && n.coreLock == s.coreLock && n.pc == s.pc
            && n.fw == ChangeState(s.fw, t, Ready(Shared))
  {
    var s0 := Goto(s, c, PutLock(t));
    var s1 := Next(s0, c);
    assert Finish(s0, c) == Finish(s1, c) == Next(s1, c);
    assert s.pc[c := Rest] == s.pc;
  }

  /** fifo_block or fifo_terminate run alone takes the task away. */
  lemma RemoveAlone(s: State, c: nat, t: Tid, to: Place)
    requires Shaped(s, c) && s.pc[c] == Rest
    ensures var n := Finish(Goto(s, c, DropLock(t, to)), c);
            && n.rqLock == None && n.coreLock == s.coreLock && n.pc == s.pc
            && n.fw == ChangeState(s.fw, t, to)
  {
    var s0 := Goto(s, c, DropLock(t, to));
    var s1 := Next(s0, c);
    assert Finish(s0, c) == Finish(s1, c) == Next(s1, c);
    assert s.pc[c := Rest] == s.pc;
  }

  lemma FinishUnlock(s: State, c: nat)
    requires c < |s.pc| && s.pc[c] == PullUnlock
    ensures Finish(s, c) == DropRq(s, c, Rest)
  {
    assert Finish(s, c) == Finish(DropRq(s, c, Rest), c);
  }

  lemma FinishFirst(s: State, c: nat)
    requires CanAdvance(s, c)
    ensures Finish(s, c) == Finish(Next(s, c), c)
  {
  }

  lemma NextLocks(s: State, c: nat, t: Tid)
    requires c < |s.pc| == |s.coreLock| && s.coreLock[c] == None
    ensures s.pc[c] == PullLocalLock(t) ==> CanAdvance(s, c) && Next(s, c) == TakeCore(s, c, c, PullLocalMove(t))
    ensures s.pc[c] == PullHomeLock(t) ==> CanAdvance(s, c) && Next(s, c) == TakeCore(s, c, c, PullHomeMove(t))
  {
  }

  lemma PullMoveAlone(s: State, c: nat, t: Tid)
    requires c < |s.pc| == |s.coreLock| && s.coreLock[c] == None
    requires s.pc[c] in {PullLocalLock(t), PullHomeLock(t)}
    ensures var n := Finish(s, c);
            && n.rqLock == None && n.coreLock == s.coreLock && n.pc == s.pc[c := Rest]
            && n.fw == ChangeState(s.fw, t, Ready(Own(c)))
  {
    NextLocks(s, c, t);
    FinishFirst(s, c);
    UnlockAlone(TakeCore(s, c, c, if s.pc[c] == PullLocalLock(t) then PullLocalMove(t) else PullHomeMove(t)), c, t);
    assert s.coreLock[c := Some(c)][c := None] == s.coreLock;
  }

  lemma UnlockAlone(s: State, c: nat, t: Tid)
    requires c < |s.pc| == |s.coreLock| && s.pc[c] in {PullLocalMove(t), PullHomeMove(t)}
    ensures var n := Finish(s, c);
            && n.rqLock == None && n.coreLock == s.coreLock[c := None] && n.pc == s.pc[c := Rest]
            && n.fw == ChangeState(s.fw, t, Ready(Own(c)))
  {
    var s2 := Next(s, c);
    assert Finish(s, c) == Finish(s2, c);
    FinishUnlock(s2, c);
  }

  lemma NextRemote(s: State, c: nat, t: Tid, d: nat)
    requires c < |s.pc| && s.pc[c] == PullRemoteLock(t, d) && d < |s.coreLock| && s.coreLock[d] == None
    ensures CanAdvance(s, c) && Next(s, c) == TakeCore(s, c, d, PullRemoteMove(t, d))
  {
  }

  lemma PullRemoteAlone(s: State, c: nat, t: Tid, d: nat)
    requires c < |s.pc| == |s.coreLock| && d < |s.pc| && s.coreLock[c] == s.coreLock[d] == None
    requires s.pc[c] == PullRemoteLock(t, d)
    ensures var n := Finish(s, c);
            && n.rqLock == None && n.coreLock == s.coreLock && n.pc == s.pc[c := Rest]
            && n.fw == ChangeState(ChangeState(s.fw, t, Migrating(c)), t, Ready(Own(c)))
  {
    NextRemote(s, c, t, d);
    FinishFirst(s, c);
    var s1 := TakeCore(s, c, d, PullRemoteMove(t, d));
    FinishFirst(s1, c);
    var s2 := Next(s1, c);
    assert s2.pc[c] == PullHomeLock(t) && s2.coreLock == s.coreLock;
    PullMoveAlone(s2, c, t);
  }

  /** fifo_newly_idle run alone moves the global head to this core's queue, and to this core. */
  lemma NewlyIdleAlone(s: State, c: nat)
    requires Shaped(s, c) && s.pc[c] == Rest && (s.fw.shared != [] ==> CpuOf(s.fw, s.fw.shared[0]) < |s.pc|)
    ensures var n := Finish(Goto(s, c, PullLock), c);
            && n.rqLock == None && n.coreLock == s.coreLock && n.pc == s.pc
            && n.fw == Pulled(s.fw, c)
  {
    assert s.coreLock[c] in s.coreLock;
    var s0 := Goto(s, c, PullLock);
    var s1 := Next(s0, c);
    assert Finish(s0, c) == Finish(s1, c);
    var s2 := Next(s1, c);
    assert Finish(s1, c) == Finish(s2, c);
    assert s.pc[c := Rest] == s.pc;
    if s.fw.shared == [] {
      assert Finish(s2, c) == Next(s2, c);
    } else if CpuOf(s.fw, s.fw.shared[0]) == c {
      PullMoveAlone(s2, c, s.fw.shared[0]);
    } else {
      assert s.coreLock[CpuOf(s.fw, s.fw.shared[0])] in s.coreLock;
      PullRemoteAlone(s2, c, s.fw.shared[0], CpuOf(s.fw, s.fw.shared[0]));
    }
  }

  // ---------------------------------------------------------------- what each event does, run alone

  /** Nothing but the framework's records and the ledger has changed: all locks free, all cores where they were. */
  ghost predicate Calm(s: State, n: State) {
    n.rqLock == None && n.coreLock == s.coreLock && n.pc == s.pc
  }

  /** A state in which core `c` may begin a handler and finish it undisturbed. */
  ghost predicate MayBegin(s: State, e: Event) {
    Inv(s) && Shaped(s, e.c) && !e.Advance? && Enabled(s, e)
  }

  function Done(s: State, e: Event): State
    requires Enabled(s, e)
  {
    Finish(Step(s, e), e.c)
  }

  lemma PulledMeans(f: Fw, c: nat)
    requires Sound(f) && c < |f.own|
    ensures PulledHere(f, Pulled(f, c), c)
  {
    if f.shared != [] {
      var t := f.shared[0];
      assert t in f.shared && QueueOk(f.place, f.shared, Ready(Shared));
      if f.cpu[t] == c {
        HeadComesHere(f, t, c);
        assert f.cpu[t := c] == f.cpu;
      } else {
        HeadComesBy(f, t, Migrating(c), c);
        JoinsHere(ChangeState(f, t, Migrating(c)), t, c);
      }
    }
  }

  lemma InvSound(s: State)
    requires Inv(s)
    ensures Sound(s.fw)
  {
    forall t | t in s.fw.place ensures t in s.fw.cpu && s.fw.cpu[t] < |s.fw.own| {
      assert TaskOk(s.fw, s.pc, t);
    }
  }

  /** Schedule starts the head of the core's local queue, or else its own task at the global head. */
  lemma ScheduleEvent(s: State, c: nat)
    requires MayBegin(s, Schedule(c))
    ensures Calm(s, Done(s, Schedule(c))) && StartedHere(s.fw, Done(s, Schedule(c)).fw, c)
  {
    ScheduleAlone(s, c);
    InvSound(s);
    PickedMeans(s.fw, c);
  }

  /** Newly idle brings the global head to the tail of the core's local queue. */
  lemma NewlyIdleEvent(s: State, c: nat)
    requires MayBegin(s, NewlyIdle(c))
    ensures Calm(s, Done(s, NewlyIdle(c))) && PulledHere(s.fw, Done(s, NewlyIdle(c)).fw, c)
  {
    InvSound(s);
    if s.fw.shared != [] {
      assert s.fw.shared[0] in s.fw.shared && QueueOk(s.fw.place, s.fw.shared, Ready(Shared));
    }
    NewlyIdleAlone(s, c);
    PulledMeans(s.fw, c);
  }

  /** A tick at the end of the quantum, or a yield, sends the running task to the tail of the global queue. */
  lemma RequeueEvent(s: State, c: nat)
    requires MayBegin(s, Requeue(c))
    ensures Calm(s, Done(s, Requeue(c))) && QueuedLast(s.fw, Done(s, Requeue(c)).fw, s.fw.current[c].value)
  {
    RunnerFree(s, c);
    EnqueueAlone(s, c, s.fw.current[c].value);
    QueuedLastMeans(s.fw, s.fw.current[c].value);
  }

  /** Block and terminate of the running task take it off its core. */
  lemma DropCurrentEvent(s: State, c: nat, to: Place)
    requires MayBegin(s, DropCurrent(c, to))
    ensures var n := Done(s, DropCurrent(c, to));
            Calm(s, n) && TakenAway(s.fw, n.fw, s.fw.current[c].value, to)
  {
    RunnerFree(s, c);
    RemoveAlone(s, c, s.fw.current[c].value, to);
    TakenAwayMeans(s.fw, s.fw.current[c].value, to);
  }

  /** Block and terminate of a waiting task take it out of the global queue, wherever it stands. */
  lemma DropOtherEvent(s: State, c: nat, t: Tid, to: Place)
    requires MayBegin(s, DropOther(c, t, to))
    ensures Calm(s, Done(s, DropOther(c, t, to))) && TakenAway(s.fw, Done(s, DropOther(c, t, to)).fw, t, to)
  {
    var a := Step(s, DropOther(c, t, to));
    FinishFirst(a, c);
    assert s.pc[c := Drop(t, to)][c := Rest] == s.pc;
    TakenAwayMeans(s.fw, t, to);
  }

  lemma SelectAlone(s: State, c: nat, t: Tid, target: nat)
    requires Shaped(s, c) && s.pc[c] == Rest
    ensures var n := Finish(Goto(s, c, SelectLock(t, target)), c);
            Calm(s, n) && n.fw == ChangeState(s.fw.(cpu := s.fw.cpu[t := target]), t, Ready(Shared))
  {
    var a := Goto(s, c, SelectLock(t, target));
    FinishFirst(a, c);
    var b := Next(a, c);
    FinishFirst(b, c);
    var d := s.(fw := s.fw.(cpu := s.fw.cpu[t := target]));
    assert Next(b, c) == Goto(d, c, PutLock(t));
    EnqueueAlone(d, c, t);
  }

  /** A new task goes to the tail of the global queue, on its CPU, or on the chosen one. */
  lemma NewEvent(s: State, c: nat, t: Tid, cpu: nat, exec: bool, target: nat)
    requires MayBegin(s, New(c, t, cpu, exec, target))
    ensures var n := Done(s, New(c, t, cpu, exec, target));
            Calm(s, n) && BornLast(s.fw, n.fw, t, if exec then cpu else target)
  {
    var m := s.(fw := Create(s.fw, t, cpu));
    if exec {
      EnqueueAlone(m, c, t);
      BornLastMeans(s.fw, t, cpu);
    } else {
      SelectAlone(m, c, t, target);
      assert m.fw.(cpu := m.fw.cpu[t := target]) == Create(s.fw, t, target);
      BornLastMeans(s.fw, t, target);
    }
  }

  /** A task that wakes goes to the tail of the global queue, on the chosen CPU. */
  lemma UnblockEvent(s: State, c: nat, t: Tid, target: nat)
    requires MayBegin(s, Unblock(c, t, target))
    ensures var n := Done(s, Unblock(c, t, target));
            Calm(s, n) && QueuedLast(s.fw.(cpu := s.fw.cpu[t := target]), n.fw, t)
  {
    var m := Move(s, t, NotQueued);
    ChangeStateWf(s.fw, t, NotQueued);
    SelectAlone(m, c, t, target);
    RetargetWf(m.fw, t, target);
    QueuedLastMeans(m.fw.(cpu := m.fw.cpu[t := target]), t);
    NoneRuns(s.fw, t);
    Wakes(s.fw, t);
  }

  /** Still idle, with a task in the global queue only: the pull and a second schedule start that task. */
  lemma PullThenSchedule(a: State, c: nat)
    requires MayBegin(a, Schedule(c)) && a.fw.own[c] == [] && a.fw.shared != []
    ensures Enabled(a, NewlyIdle(c)) && Enabled(Done(a, NewlyIdle(c)), Schedule(c))
    ensures var z := Done(Done(a, NewlyIdle(c)), Schedule(c));
            c < |z.fw.current| && z.fw.current[c] == Some(a.fw.shared[0])
  {
    NewlyIdleEvent(a, c);
    var b := Done(a, NewlyIdle(c));
    StepKeeps(a, NewlyIdle(c));
    FinishKeeps(Step(a, NewlyIdle(c)), c);
    ScheduleEvent(b, c);
  }

  /**
   A core that waits for no lock gets a task: schedule, then newly_idle if it is still idle, then
   schedule.  It is the local head, or else the global head.
   */
  lemma IdleCoreGetsTask(s: State, c: nat)
    requires MayBegin(s, Schedule(c)) && (s.fw.own[c] != [] || s.fw.shared != [])
    ensures var a := Done(s, Schedule(c));
            && c < |a.fw.current|
            && (a.fw.current[c] == None ==>
                  && Enabled(a, NewlyIdle(c)) && Enabled(Done(a, NewlyIdle(c)), Schedule(c))
                  && var z := Done(Done(a, NewlyIdle(c)), Schedule(c));
                     s.fw.shared != [] && c < |z.fw.current| && z.fw.current[c] == Some(s.fw.shared[0]))
            && (s.fw.own[c] != [] ==> a.fw.current[c] == Some(s.fw.own[c][0]))
  {
    ScheduleEvent(s, c);
    StepKeeps(s, Schedule(c));
    FinishKeeps(Step(s, Schedule(c)), c);
    var a := Done(s, Schedule(c));
    if a.fw.current[c] == None {
      PullThenSchedule(a, c);
    }
  }
}
