/** Every step of every core keeps the invariant of the global-FIFO protocol. */
module GlobalFifoProofs {
  import opened Queues
  import opened Framework
  import opened Ledgers
  import opened GlobalFifo

  // ---------------------------------------------------------------- locks

  lemma TakeRqOk(s: State, c: nat, next: Pc)
    requires LocksOk(s) && c < |s.pc| && s.rqLock == None && HoldsRq(next)
    requires forall d :: HoldsCore(next, c, d) == HoldsCore(s.pc[c], c, d)
    ensures LocksOk(TakeRq(s, c, next))
  {
  }

  lemma DropRqOk(s: State, c: nat, next: Pc)
    requires LocksOk(s) && c < |s.pc| && HoldsRq(s.pc[c]) && !HoldsRq(next)
    requires forall d :: HoldsCore(next, c, d) == HoldsCore(s.pc[c], c, d)
    ensures LocksOk(DropRq(s, c, next))
  {
  }

  lemma TakeCoreOk(s: State, c: nat, d: nat, next: Pc)
    requires LocksOk(s) && c < |s.pc| && d < |s.pc| && s.coreLock[d] == None && HoldsRq(next) == HoldsRq(s.pc[c])
    requires forall x :: HoldsCore(next, c, x) == (x == d || HoldsCore(s.pc[c], c, x))
    ensures LocksOk(SetCore(s, c, d, Some(c), next))
  {
    var n := SetCore(s, c, d, Some(c), next);
    forall a: nat, x: nat | a < |s.pc| && x < |s.pc| ensures n.coreLock[x] == Some(a) <==> HoldsCore(n.pc[a], a, x) {
      assert s.coreLock[x] == Some(a) <==> HoldsCore(s.pc[a], a, x);
    }
  }

  lemma DropCoreOk(s: State, c: nat, d: nat, next: Pc)
    requires LocksOk(s) && c < |s.pc| && d < |s.pc| && HoldsCore(s.pc[c], c, d) && HoldsRq(next) == HoldsRq(s.pc[c])
    requires forall x :: HoldsCore(next, c, x) == (x != d && HoldsCore(s.pc[c], c, x))
    ensures LocksOk(SetCore(s, c, d, None, next))
  {
    var n := SetCore(s, c, d, None, next);
    assert s.coreLock[d] == Some(c);
    forall a: nat, x: nat | a < |s.pc| && x < |s.pc| ensures n.coreLock[x] == Some(a) <==> HoldsCore(n.pc[a], a, x) {
      assert s.coreLock[x] == Some(a) <==> HoldsCore(s.pc[a], a, x);
    }
  }

  lemma GotoOk(s: State, c: nat, next: Pc)
    requires LocksOk(s) && c < |s.pc| && HoldsRq(next) == HoldsRq(s.pc[c])
    requires forall d :: HoldsCore(next, c, d) == HoldsCore(s.pc[c], c, d)
    ensures LocksOk(Goto(s, c, next))
  {
  }

  // ---------------------------------------------------------------- frames

  lemma AloneKept(pcs: seq<Pc>, c: nat, next: Pc)
    requires Alone(pcs) && c < |pcs| && Subject(next) in {None, Subject(pcs[c])}
    ensures Alone(pcs[c := next])
  {
  }

  lemma AloneNew(pcs: seq<Pc>, c: nat, next: Pc)
    requires Alone(pcs) && c < |pcs|
    requires forall d :: 0 <= d < |pcs| && d != c && Subject(pcs[d]).Some? ==> Subject(pcs[d]) != Subject(next)
    ensures Alone(pcs[c := next])
  {
  }

  /** A step that moves no task: only what core `c` relies on has to be checked. */
  lemma Settled(s: State, n: State, c: nat, next: Pc)
    requires Inv(s) && c < |s.pc| && n.fw == s.fw && n.log == s.log && n.pc == s.pc[c := next]
    requires LocksOk(n) && PcOk(s.fw, c, next) && Alone(n.pc)
    requires forall t :: InHand(s.pc[c], t) ==>
             InHand(next, t) && next.PullLocal? == s.pc[c].PullLocal? && next.PullReady? == s.pc[c].PullReady?
    ensures Inv(n)
  {
    forall t | t in s.fw.place ensures TaskOk(n.fw, n.pc, t) {
      assert TaskOk(s.fw, s.pc, t);
    }
  }

  /** Moving a task no other core is at work on leaves intact what the other cores rely on. */
  lemma OthersKept(f: Fw, t: Tid, to: Place, d: nat, pc: Pc)
    requires Wf(f) && d < |f.current| && t in f.place && PcOk(f, d, pc) && Subject(pc) != Some(t)
    requires to != Running(d) && f.place[t] != Running(d)
    ensures PcOk(ChangeState(f, t, to), d, pc)
  {
  }

  /** A step in which core `c` moves task `t`. */
  lemma Moved(s: State, n: State, c: nat, t: Tid, to: Place, next: Pc)
    requires Inv(s) && c < |s.pc| && t in s.fw.place && Fits(|s.fw.own|, to)
    requires n.fw == ChangeState(s.fw, t, to) && n.pc == s.pc[c := next]
    requires LocksOk(n) && PcOk(n.fw, c, next) && Subject(next) in {None, Some(t)}
    requires Lawful(n.log, n.fw.shared)
    requires to.Running? ==> to.core == c && s.fw.current[c] == None
    requires s.fw.place[t].Running? ==> s.fw.place[t].core == c
    requires forall d :: 0 <= d < |s.pc| && d != c ==> Subject(s.pc[d]) != Some(t)
    requires forall x :: InHand(s.pc[c], x) ==> x == t
    requires TaskOk(n.fw, n.pc, t)
    ensures Inv(n)
  {
    ChangeStateWf(s.fw, t, to);
    AloneNew(s.pc, c, next);
    forall d | 0 <= d < |n.pc| ensures PcOk(n.fw, d, n.pc[d]) {
      if d != c {
        OthersKept(s.fw, t, to, d, s.pc[d]);
      }
    }
    TasksKept(s.fw, s.pc, c, t, to, next);
  }

  lemma TasksKept(f: Fw, pcs: seq<Pc>, c: nat, t: Tid, to: Place, next: Pc)
    requires TasksOk(f, pcs) && c < |pcs| && t in f.place && Fits(|f.own|, to)
    requires forall x :: InHand(pcs[c], x) ==> x == t
    requires TaskOk(ChangeState(f, t, to), pcs[c := next], t)
    ensures TasksOk(ChangeState(f, t, to), pcs[c := next])
  {
    forall x | x in f.place ensures TaskOk(ChangeState(f, t, to), pcs[c := next], x) {
      assert TaskOk(f, pcs, x);
    }
  }

  /** A core at rest starts a handler. */
  lemma Begun(s: State, c: nat, next: Pc)
    requires Inv(s) && c < |s.pc| && s.pc[c] == Rest
    requires !HoldsRq(next) && (forall d :: !HoldsCore(next, c, d)) && PcOk(s.fw, c, next)
    requires Subject(next).Some? ==> forall d :: 0 <= d < |s.pc| ==> Subject(s.pc[d]) != Subject(next)
    ensures Inv(Goto(s, c, next))
  {
    AloneNew(s.pc, c, next);
    GotoOk(s, c, next);
    Settled(s, Goto(s, c, next), c, next);
  }

  lemma OnlySubject(s: State, c: nat, t: Tid)
    requires Inv(s) && c < |s.pc| && Subject(s.pc[c]) == Some(t)
    ensures t in s.fw.place && TaskOk(s.fw, s.pc, t)
    ensures forall d :: 0 <= d < |s.pc| && d != c ==> Subject(s.pc[d]) != Some(t)
  {
    assert PcOk(s.fw, c, s.pc[c]);
  }

  /** A task that waits in a queue is nobody's subject, but for the holder of the global lock. */
  lemma QueuedNotSubject(s: State, t: Tid, d: nat)
    requires Inv(s) && d < |s.pc| && t in s.fw.place && s.fw.place[t].Ready? && Subject(s.pc[d]) == Some(t)
    ensures s.fw.place[t] == Ready(Shared) && HoldsRq(s.pc[d])
  {
    assert PcOk(s.fw, d, s.pc[d]);
  }

  lemma HeadNotSubject(s: State, t: Tid, c: nat)
    requires Inv(s) && c < |s.pc| && t in s.fw.place
    requires s.fw.place[t] == Ready(Own(c)) || (s.fw.place[t] == Ready(Shared) && HoldsRq(s.pc[c]))
    ensures forall d :: 0 <= d < |s.pc| && d != c ==> Subject(s.pc[d]) != Some(t)
  {
    forall d | 0 <= d < |s.pc| && d != c ensures Subject(s.pc[d]) != Some(t) {
      if Subject(s.pc[d]) == Some(t) {
        QueuedNotSubject(s, t, d);
      }
    }
  }

  lemma OwnHead(s: State, c: nat)
    requires Inv(s) && c < |s.pc| && s.fw.own[c] != []
    ensures var t := s.fw.own[c][0];
            && t in s.fw.place && s.fw.place[t] == Ready(Own(c)) && t in s.fw.cpu && s.fw.cpu[t] == c
            && forall d :: 0 <= d < |s.pc| && d != c ==> Subject(s.pc[d]) != Some(t)
  {
    var t := s.fw.own[c][0];
    assert t in s.fw.own[c] && QueueOk(s.fw.place, s.fw.own[c], Ready(Own(c)));
    HeadNotSubject(s, t, c);
    assert TaskOk(s.fw, s.pc, t);
  }

  lemma SharedHead(s: State, c: nat)
    requires Inv(s) && c < |s.pc| && s.fw.shared != [] && HoldsRq(s.pc[c])
    ensures var t := s.fw.shared[0];
            && t in s.fw.place && s.fw.place[t] == Ready(Shared) && t in s.fw.cpu && s.fw.cpu[t] < |s.pc|
            && Without(s.fw.shared, t) == s.fw.shared[1..]
            && forall d :: 0 <= d < |s.pc| && d != c ==> Subject(s.pc[d]) != Some(t)
  {
    var t := s.fw.shared[0];
    assert t in s.fw.shared;
    HeadNotSubject(s, t, c);
    assert TaskOk(s.fw, s.pc, t);
    WithoutFacts(s.fw.shared, t);
  }

  // ---------------------------------------------------------------- fifo_newly_idle

  lemma PullTakeKeeps(s: State, c: nat)
    requires Inv(s) && CanAdvance(s, c) && s.pc[c] == PullTake && s.fw.shared != []
    ensures Inv(Next(s, c))
  {
    var t := s.fw.shared[0];
    SharedHead(s, c);
    LeaveLawful(s.log, s.fw.shared);
    var next := if CpuOf(s.fw, t) == c then PullLocal(t) else PullLow(t, CpuOf(s.fw, t));
    DropRqOk(s, c, next);
    Moved(s, Next(s, c), c, t, Held(c), next);
  }

  lemma PullLocalKeeps(s: State, c: nat)
    requires Inv(s) && CanAdvance(s, c) && s.pc[c].PullLocal?
    ensures Inv(Next(s, c))
  {
    OnlySubject(s, c, s.pc[c].t);
    assert PcOk(s.fw, c, s.pc[c]);
    GotoOk(s, c, Rest);
    Moved(s, Next(s, c), c, s.pc[c].t, Ready(Own(c)), Rest);
  }

  lemma PullLowKeeps(s: State, c: nat)
    requires Inv(s) && CanAdvance(s, c) && s.pc[c].PullLow?
    ensures Inv(Next(s, c))
  {
    var t, d := s.pc[c].t, s.pc[c].from;
    assert PcOk(s.fw, c, s.pc[c]);
    TakeCoreOk(s, c, Min(c, d), PullHigh(t, d));
    AloneKept(s.pc, c, PullHigh(t, d));
    Settled(s, Next(s, c), c, PullHigh(t, d));
  }

  lemma PullHighKeeps(s: State, c: nat)
    requires Inv(s) && CanAdvance(s, c) && s.pc[c].PullHigh?
    ensures Inv(Next(s, c))
  {
    var t, d := s.pc[c].t, s.pc[c].from;
    assert PcOk(s.fw, c, s.pc[c]);
    TakeCoreOk(s, c, Max(c, d), PullMigrate(t, d));
    AloneKept(s.pc, c, PullMigrate(t, d));
    Settled(s, Next(s, c), c, PullMigrate(t, d));
  }

  lemma PullMigrateKeeps(s: State, c: nat)
    requires Inv(s) && CanAdvance(s, c) && s.pc[c].PullMigrate?
    ensures Inv(Next(s, c))
  {
    var t, d := s.pc[c].t, s.pc[c].from;
    OnlySubject(s, c, t);
    assert PcOk(s.fw, c, s.pc[c]);
    GotoOk(s, c, PullReady(t, d));
    Moved(s, Next(s, c), c, t, Migrating(c), PullReady(t, d));
  }

  lemma PullReadyKeeps(s: State, c: nat)
    requires Inv(s) && CanAdvance(s, c) && s.pc[c].PullReady?
    ensures Inv(Next(s, c))
  {
    var t, d := s.pc[c].t, s.pc[c].from;
    OnlySubject(s, c, t);
    assert PcOk(s.fw, c, s.pc[c]);
    DropCoreOk(s, c, d, PullUnlock);
    Moved(s, Next(s, c), c, t, Ready(Own(c)), PullUnlock);
  }

  lemma PullUnlockKeeps(s: State, c: nat)
    requires Inv(s) && CanAdvance(s, c) && s.pc[c].PullUnlock?
    ensures Inv(Next(s, c))
  {
    DropCoreOk(s, c, c, Rest);
    AloneKept(s.pc, c, Rest);
    Settled(s, Next(s, c), c, Rest);
  }

  // ---------------------------------------------------------------- fifo_schedule

  lemma PickLocalKeeps(s: State, c: nat)
    requires Inv(s) && CanAdvance(s, c) && s.pc[c] == PickLocal
    ensures Inv(Next(s, c))
  {
    assert PcOk(s.fw, c, s.pc[c]);
    if s.fw.own[c] != [] {
      OwnHead(s, c);
      GotoOk(s, c, Rest);
      Moved(s, Next(s, c), c, s.fw.own[c][0], Running(c), Rest);
    } else {
      GotoOk(s, c, PickGlobalLock);
      AloneKept(s.pc, c, PickGlobalLock);
      Settled(s, Next(s, c), c, PickGlobalLock);
    }
  }

  lemma PickGlobalKeeps(s: State, c: nat)
    requires Inv(s) && CanAdvance(s, c) && s.pc[c] == PickGlobal
    requires s.fw.shared != [] && CpuOf(s.fw, s.fw.shared[0]) == c
    ensures Inv(Next(s, c))
  {
    assert PcOk(s.fw, c, s.pc[c]);
    SharedHead(s, c);
    DropRqOk(s, c, Rest);
    LeaveLawful(s.log, s.fw.shared);
    Moved(s, Next(s, c), c, s.fw.shared[0], Running(c), Rest);
  }

  lemma ReleaseKeeps(s: State, c: nat)
    requires Inv(s) && CanAdvance(s, c) && s.pc[c] in {PullTake, PickGlobal}
    ensures Inv(DropRq(s, c, Rest))
  {
    DropRqOk(s, c, Rest);
    AloneKept(s.pc, c, Rest);
    Settled(s, DropRq(s, c, Rest), c, Rest);
  }

  // ---------------------------------------------------------------- enqueue, tick, block, terminate

  lemma PutKeeps(s: State, c: nat)
    requires Inv(s) && CanAdvance(s, c) && s.pc[c].Put?
    ensures Inv(Next(s, c))
  {
    var t := s.pc[c].t;
    OnlySubject(s, c, t);
    assert PcOk(s.fw, c, s.pc[c]);
    DropRqOk(s, c, Rest);
    ArriveLawful(s.log, s.fw.shared, t);
    Moved(s, Next(s, c), c, t, Ready(Shared), Rest);
  }

  lemma TickStaysKeeps(s: State, c: nat, t: Tid)
    requires Inv(s) && CanAdvance(s, c) && s.pc[c] == Tick(t) && s.fw.own[c] == []
    ensures Inv(Next(s, c))
  {
    OnlySubject(s, c, t);
    assert PcOk(s.fw, c, s.pc[c]);
    GotoOk(s, c, Rest);
    Moved(s, Next(s, c), c, t, Ready(Own(c)), Rest);
  }

  lemma TickGoesKeeps(s: State, c: nat, t: Tid)
    requires Inv(s) && CanAdvance(s, c) && s.pc[c] == Tick(t) && s.fw.own[c] != []
    ensures Inv(Next(s, c))
  {
    assert PcOk(s.fw, c, s.pc[c]);
    GotoOk(s, c, PutLock(t));
    AloneKept(s.pc, c, PutLock(t));
    Settled(s, Next(s, c), c, PutLock(t));
  }

  lemma TickKeeps(s: State, c: nat)
    requires Inv(s) && CanAdvance(s, c) && s.pc[c].Tick?
    ensures Inv(Next(s, c))
  {
    if s.fw.own[c] == [] {
      TickStaysKeeps(s, c, s.pc[c].t);
    } else {
      TickGoesKeeps(s, c, s.pc[c].t);
    }
  }

  lemma BlockKeeps(s: State, c: nat)
    requires Inv(s) && CanAdvance(s, c) && s.pc[c].Block?
    ensures Inv(Next(s, c))
  {
    var t := s.pc[c].t;
    OnlySubject(s, c, t);
    assert PcOk(s.fw, c, s.pc[c]);
    DropRqOk(s, c, Rest);
    if t in s.fw.shared {
      var k := IndexOf(s.fw.shared, t);
      WithoutAt(s.fw.shared, k);
      WithdrawLawful(s.log, s.fw.shared, k);
    }
    Moved(s, Next(s, c), c, t, Blocked, Rest);
  }

  lemma EndKeeps(s: State, c: nat)
    requires Inv(s) && CanAdvance(s, c) && s.pc[c].End?
    ensures Inv(Next(s, c))
  {
    OnlySubject(s, c, s.pc[c].t);
    assert PcOk(s.fw, c, s.pc[c]);
    GotoOk(s, c, Rest);
    Moved(s, Next(s, c), c, s.pc[c].t, Terminated, Rest);
  }

  lemma WaitRqKeeps(s: State, c: nat)
    requires Inv(s) && CanAdvance(s, c) && WaitsRq(s.pc[c])
    ensures Inv(Next(s, c))
  {
    var next := Next(s, c).pc[c];
    TakeRqOk(s, c, next);
    AloneKept(s.pc, c, next);
    assert PcOk(s.fw, c, s.pc[c]);
    Settled(s, Next(s, c), c, next);
  }

  // ---------------------------------------------------------------- all steps

  lemma NextKeeps(s: State, c: nat)
    requires Inv(s) && CanAdvance(s, c)
    ensures Inv(Next(s, c))
  {
    match s.pc[c]
    case Rest =>
    case PullTake =>
      if s.fw.shared == [] {
        ReleaseKeeps(s, c);
      } else {
        PullTakeKeeps(s, c);
      }
    case PullLocal(_) => PullLocalKeeps(s, c);
    case PullLow(_, _) => PullLowKeeps(s, c);
    case PullHigh(_, _) => PullHighKeeps(s, c);
    case PullMigrate(_, _) => PullMigrateKeeps(s, c);
    case PullReady(_, _) => PullReadyKeeps(s, c);
    case PullUnlock => PullUnlockKeeps(s, c);
    case PickLocal => PickLocalKeeps(s, c);
    case PickGlobal =>
      if s.fw.shared != [] && CpuOf(s.fw, s.fw.shared[0]) == c {
        PickGlobalKeeps(s, c);
      } else {
        ReleaseKeeps(s, c);
      }
    case Put(_) => PutKeeps(s, c);
    case Tick(_) => TickKeeps(s, c);
    case Block(_) => BlockKeeps(s, c);
    case End(_) => EndKeeps(s, c);
    case _ => WaitRqKeeps(s, c);
  }

  lemma SubjectExists(s: State, d: nat, t: Tid)
    requires Inv(s) && d < |s.pc| && Subject(s.pc[d]) == Some(t)
    ensures t in s.fw.place && s.fw.place[t] != Terminated
  {
    assert PcOk(s.fw, d, s.pc[d]);
  }

  lemma CreateFrame(f: Fw, t: Tid, cpu: nat, d: nat, pc: Pc)
    requires d < |f.current| && Unused(f, t) && PcOk(f, d, pc)
    ensures PcOk(Create(f, t, cpu), d, pc)
  {
  }

  lemma CreateKeeps(s: State, t: Tid, cpu: nat)
    requires Inv(s) && Unused(s.fw, t) && cpu < |s.pc|
    ensures Inv(s.(fw := Create(s.fw, t, cpu)))
  {
    var m := s.(fw := Create(s.fw, t, cpu));
    CreateWf(s.fw, t, cpu);
    forall d | 0 <= d < |s.pc| ensures PcOk(m.fw, d, s.pc[d]) {
      CreateFrame(s.fw, t, cpu, d, s.pc[d]);
    }
    forall x | x in m.fw.place ensures TaskOk(m.fw, m.pc, x) {
      if x != t {
        assert TaskOk(s.fw, s.pc, x);
      }
    }
  }

  lemma NewKeeps(s: State, e: Event)
    requires Inv(s) && Enabled(s, e) && e.New?
    ensures Inv(Step(s, e))
  {
    forall d | 0 <= d < |s.pc| && Subject(s.pc[d]) == Some(e.t) ensures false {
      SubjectExists(s, d, e.t);
    }
    CreateKeeps(s, e.t, e.cpu);
    Begun(s.(fw := Create(s.fw, e.t, e.cpu)), e.c, PutLock(e.t));
  }

  lemma WakeKeeps(s: State, c: nat, t: Tid)
    requires Inv(s) && c < |s.pc| && s.pc[c] == Rest && t in s.fw.place && s.fw.place[t] == Blocked
    requires forall d :: 0 <= d < |s.pc| ==> Subject(s.pc[d]) != Some(t)
    ensures Inv(Move(s, t, NotQueued))
  {
    assert TaskOk(s.fw, s.pc, t);
    assert s.pc == s.pc[c := Rest];
    Moved(s, Move(s, t, NotQueued), c, t, NotQueued, Rest);
  }

  lemma FreeMeans(s: State, t: Tid)
    requires Free(s, t)
    ensures forall d :: 0 <= d < |s.pc| ==> Subject(s.pc[d]) != Some(t)
  {
    forall d | 0 <= d < |s.pc| ensures Subject(s.pc[d]) != Some(t) {
      assert s.pc[d] in s.pc;
    }
  }

  lemma CurrentKeeps(s: State, c: nat, next: Pc)
    requires Inv(s) && c < |s.pc| && s.pc[c] == Rest && s.fw.current[c].Some?
    requires var t := s.fw.current[c].value; next in {PutLock(t), Tick(t), BlockLock(t), End(t)}
    ensures Inv(Goto(s, c, next))
  {
    var t := s.fw.current[c].value;
    assert SlotOk(s.fw.place, s.fw.current[c], c);
    forall d | 0 <= d < |s.pc| ensures Subject(s.pc[d]) != Some(t) {
      assert PcOk(s.fw, d, s.pc[d]);
    }
    Begun(s, c, next);
  }

  lemma UnblockKeeps(s: State, e: Event)
    requires Inv(s) && Enabled(s, e) && e.Unblock?
    ensures Inv(Step(s, e))
  {
    FreeMeans(s, e.t);
    WakeKeeps(s, e.c, e.t);
    Begun(Move(s, e.t, NotQueued), e.c, PutLock(e.t));
  }

  lemma TerminateBlockedKeeps(s: State, e: Event)
    requires Inv(s) && Enabled(s, e) && e.TerminateBlocked?
    ensures Inv(Step(s, e))
  {
    FreeMeans(s, e.t);
    Begun(s, e.c, End(e.t));
  }

  lemma BlockQueuedKeeps(s: State, e: Event)
    requires Inv(s) && Enabled(s, e) && e.BlockQueued?
    ensures Inv(Step(s, e))
  {
    FreeMeans(s, e.t);
    AloneNew(s.pc, e.c, Block(e.t));
    TakeRqOk(s, e.c, Block(e.t));
    Settled(s, Step(s, e), e.c, Block(e.t));
  }

  /** Nobody has to hold the global lock for this one. */
  lemma TerminateQueuedKeeps(s: State, e: Event)
    requires Inv(s) && Enabled(s, e) && e.TerminateQueued?
    ensures Inv(Step(s, e))
  {
    var t, k := e.t, IndexOf(s.fw.shared, e.t);
    assert QueueOk(s.fw.place, s.fw.shared, Ready(Shared));
    FreeMeans(s, t);
    WithoutAt(s.fw.shared, k);
    WithdrawLawful(s.log, s.fw.shared, k);
    assert TaskOk(s.fw, s.pc, t);
    assert s.pc == s.pc[e.c := Rest];
    Moved(s, Step(s, e), e.c, t, Terminated, Rest);
  }

  /** Every step, of any core, keeps every task in one place and every lock accounted for. */
  lemma StepKeeps(s: State, e: Event)
    requires Inv(s) && Enabled(s, e)
    ensures Inv(Step(s, e))
  {
    match e
    case NewlyIdle(c) => Begun(s, c, PullLock);
    case Schedule(c) => Begun(s, c, PickLocal);
    case New(_, _, _) => NewKeeps(s, e);
    case Unblock(_, _) => UnblockKeeps(s, e);
    case Yield(c) => CurrentKeeps(s, c, PutLock(s.fw.current[c].value));
    case QuantumEnd(c) => CurrentKeeps(s, c, Tick(s.fw.current[c].value));
    case BlockCurrent(c) => CurrentKeeps(s, c, BlockLock(s.fw.current[c].value));
    case TerminateCurrent(c) => CurrentKeeps(s, c, End(s.fw.current[c].value));
    case BlockQueued(_, _) => BlockQueuedKeeps(s, e);
    case TerminateQueued(_, _) => TerminateQueuedKeeps(s, e);
    case TerminateBlocked(_, _) => TerminateBlockedKeeps(s, e);
    case Advance(c) => NextKeeps(s, c);
  }
}
