/** Every step of every core keeps the invariant of the one-queue protocol. */
module OneQueueProofs {
  import opened Queues
  import opened Framework
  import opened Ledgers
  import opened OneQueue

  // ---------------------------------------------------------------- locks

  lemma TakeRqOk(s: State, c: nat, next: Pc)
    requires LocksOk(s) && c < |s.pc| && s.rqLock == None
    requires HoldsRq(next) && HeldCore(next, c) == HeldCore(s.pc[c], c)
    ensures LocksOk(TakeRq(s, c, next))
  {
  }

  lemma DropRqOk(s: State, c: nat, next: Pc)
    requires LocksOk(s) && c < |s.pc| && HoldsRq(s.pc[c])
    requires !HoldsRq(next) && HeldCore(next, c) == HeldCore(s.pc[c], c)
    ensures LocksOk(DropRq(s, c, next))
  {
  }

  lemma TakeCoreOk(s: State, c: nat, d: nat, next: Pc)
    requires LocksOk(s) && c < |s.pc| && d < |s.pc| && s.coreLock[d] == None
    requires HoldsRq(next) == HoldsRq(s.pc[c]) && HeldCore(s.pc[c], c) == None && HeldCore(next, c) == Some(d)
    ensures LocksOk(TakeCore(s, c, d, next))
  {
  }

  lemma DropCoreOk(s: State, c: nat, d: nat, next: Pc)
    requires LocksOk(s) && c < |s.pc| && d < |s.pc|
    requires HoldsRq(next) == HoldsRq(s.pc[c]) && HeldCore(s.pc[c], c) == Some(d) && HeldCore(next, c) == None
    ensures LocksOk(DropCore(s, c, d, next))
  {
  }

  lemma GotoOk(s: State, c: nat, next: Pc)
    requires LocksOk(s) && c < |s.pc|
    requires HoldsRq(next) == HoldsRq(s.pc[c]) && HeldCore(next, c) == HeldCore(s.pc[c], c)
    ensures LocksOk(Goto(s, c, next))
  {
  }

  // ---------------------------------------------------------------- frames

  lemma AloneKept(pcs: seq<Pc>, c: nat, next: Pc)
    requires Alone(pcs) && c < |pcs| && Subject(next) in {None, Subject(pcs[c])}
    ensures Alone(pcs[c := next])
  {
  }

  lemma AloneNew(pcs: seq<Pc>, c: nat, next: Pc)
    requires Alone(pcs) && c < |pcs|
    requires forall d :: 0 <= d < |pcs| && d != c && Subject(pcs[d]).Some? ==> Subject(pcs[d]) != Subject(next)
    ensures Alone(pcs[c := next])
  {
  }

  /** A step that moves no task: only what core `c` relies on has to be checked. */
  lemma Settled(s: State, n: State, c: nat, next: Pc)
    requires Inv(s) && c < |s.pc| && n.fw == s.fw && n.log == s.log && n.pc == s.pc[c := next]
    requires LocksOk(n) && PcOk(s.fw, c, next) && Alone(n.pc)
    requires forall t :: Transit(s.pc[c], t) ==> Transit(next, t)
    ensures Inv(n)
  {
    forall t | t in s.fw.place ensures TaskOk(n.fw, n.pc, t) {
      assert TaskOk(s.fw, s.pc, t);
    }
  }

  /** Moving a task no other core is at work on leaves intact what the other cores rely on. */
  lemma OthersKept(s: State, c: nat, t: Tid, to: Place, d: nat)
    requires Inv(s) && c < |s.pc| && d < |s.pc| && d != c && t in s.fw.place && Subject(s.pc[d]) != Some(t)
    requires to != Running(d) && s.fw.place[t] != Running(d)
    requires HoldsRq(s.pc[c]) || (s.fw.place[t] != Ready(Shared) && to != Ready(Shared))
    ensures PcOk(ChangeState(s.fw, t, to), d, s.pc[d])
  {
    assert PcOk(s.fw, d, s.pc[d]);
    if LooksAtHead(s.pc[d]) {
      assert !HoldsRq(s.pc[c]);
    }
  }

  /** A step in which core `c` moves task `t`. */
  lemma Moved(s: State, n: State, c: nat, t: Tid, to: Place, next: Pc)
    requires Inv(s) && c < |s.pc| && t in s.fw.place && Fits(|s.fw.own|, to)
    requires n.fw == ChangeState(s.fw, t, to) && n.pc == s.pc[c := next]
    requires LocksOk(n) && PcOk(n.fw, c, next) && Subject(next) in {None, Subject(s.pc[c])}
    requires Lawful(n.log, n.fw.shared)
    requires to.Running? ==> to.core == c && s.fw.current[c] == None
    requires s.fw.place[t].Running? ==> s.fw.place[t].core == c
    requires forall d :: 0 <= d < |s.pc| && d != c ==> Subject(s.pc[d]) != Some(t)
    requires HoldsRq(s.pc[c]) || (s.fw.place[t] != Ready(Shared) && to != Ready(Shared))
    requires forall x :: Transit(s.pc[c], x) ==> x == t
    requires TaskOk(n.fw, n.pc, t)
    ensures Inv(n)
  {
    ChangeStateWf(s.fw, t, to);
    AloneKept(s.pc, c, next);
    forall d | 0 <= d < |n.pc| ensures PcOk(n.fw, d, n.pc[d]) {
      if d != c {
        OthersKept(s, c, t, to, d);
      }
    }
    TasksKept(s.fw, s.pc, c, t, to, next);
  }

  lemma TasksKept(f: Fw, pcs: seq<Pc>, c: nat, t: Tid, to: Place, next: Pc)
    requires TasksOk(f, pcs) && c < |pcs| && t in f.place
    requires forall x :: Transit(pcs[c], x) ==> x == t
    requires TaskOk(ChangeState(f, t, to), pcs[c := next], t)
    ensures TasksOk(ChangeState(f, t, to), pcs[c := next])
  {
    forall x | x in f.place ensures TaskOk(ChangeState(f, t, to), pcs[c := next], x) {
      assert TaskOk(f, pcs, x);
    }
  }

  /** A core at rest starts a handler. */
  lemma Begun(s: State, c: nat, next: Pc)
    requires Inv(s) && c < |s.pc| && s.pc[c] == Rest
    requires !HoldsRq(next) && HeldCore(next, c) == None && PcOk(s.fw, c, next)
    requires Subject(next).Some? ==> forall d :: 0 <= d < |s.pc| ==> Subject(s.pc[d]) != Subject(next)
    ensures Inv(Goto(s, c, next))
  {
    AloneNew(s.pc, c, next);
    GotoOk(s, c, next);
    Settled(s, Goto(s, c, next), c, next);
  }

  lemma OnlySubject(s: State, c: nat, t: Tid)
    requires Inv(s) && c < |s.pc| && Subject(s.pc[c]) == Some(t)
    ensures forall d :: 0 <= d < |s.pc| && d != c ==> Subject(s.pc[d]) != Some(t)
  {
  }

  /** A task that waits in a queue is nobody's subject, but for the holder of the global lock. */
  lemma QueuedNotSubject(s: State, t: Tid, d: nat)
    requires Inv(s) && d < |s.pc| && t in s.fw.place && s.fw.place[t].Ready? && Subject(s.pc[d]) == Some(t)
    ensures s.fw.place[t] == Ready(Shared) && HoldsRq(s.pc[d])
  {
    assert PcOk(s.fw, d, s.pc[d]);
  }

  // ---------------------------------------------------------------- fifo_newly_idle

  lemma PullLookKeeps(s: State, c: nat)
    requires Inv(s) && CanAdvance(s, c) && s.pc[c] == PullLook
    ensures Inv(Next(s, c))
  {
    var n := Next(s, c);
    GotoOk(s, c, n.pc[c]);
    if s.fw.shared != [] {
      var t := s.fw.shared[0];
      assert t in s.fw.shared;
      assert TaskOk(s.fw, s.pc, t);
      forall d | 0 <= d < |s.pc| && d != c && Subject(s.pc[d]).Some? ensures Subject(s.pc[d]) != Some(t) {
        if Subject(s.pc[d]) == Some(t) {
          QueuedNotSubject(s, t, d);
        }
      }
    }
    AloneNew(s.pc, c, n.pc[c]);
    Settled(s, n, c, n.pc[c]);
  }

  lemma PullLocalKeeps(s: State, c: nat)
    requires Inv(s) && CanAdvance(s, c) && s.pc[c].PullLocalMove?
    ensures Inv(Next(s, c))
  {
    var t := s.pc[c].t;
    OnlySubject(s, c, t);
    TailFacts(s.fw.shared);
    WithoutFacts(s.fw.shared, t);
    LeaveLawful(s.log, s.fw.shared);
    DropCoreOk(s, c, c, PullUnlock);
    Moved(s, Next(s, c), c, t, Ready(Own(c)), PullUnlock);
  }

  lemma PullRemoteKeeps(s: State, c: nat)
    requires Inv(s) && CanAdvance(s, c) && s.pc[c].PullRemoteMove?
    ensures Inv(Next(s, c))
  {
    var t, d := s.pc[c].t, s.pc[c].from;
    OnlySubject(s, c, t);
    WithoutFacts(s.fw.shared, t);
    LeaveLawful(s.log, s.fw.shared);
    DropCoreOk(s, c, d, PullHomeLock(t));
    Moved(s, Next(s, c), c, t, Migrating(c), PullHomeLock(t));
  }

  lemma PullHomeKeeps(s: State, c: nat)
    requires Inv(s) && CanAdvance(s, c) && s.pc[c].PullHomeMove?
    ensures Inv(Next(s, c))
  {
    var t := s.pc[c].t;
    OnlySubject(s, c, t);
    assert TaskOk(s.fw, s.pc, t);
    DropCoreOk(s, c, c, PullUnlock);
    Moved(s, Next(s, c), c, t, Ready(Own(c)), PullUnlock);
  }

  // ---------------------------------------------------------------- fifo_schedule

  lemma HeadNotSubject(s: State, t: Tid, c: nat)
    requires Inv(s) && c < |s.pc| && t in s.fw.place
    requires s.fw.place[t] == Ready(Own(c)) || (s.fw.place[t] == Ready(Shared) && HoldsRq(s.pc[c]))
    ensures forall d :: 0 <= d < |s.pc| && d != c ==> Subject(s.pc[d]) != Some(t)
  {
    forall d | 0 <= d < |s.pc| && d != c ensures Subject(s.pc[d]) != Some(t) {
      if Subject(s.pc[d]) == Some(t) {
        QueuedNotSubject(s, t, d);
      }
    }
  }

  lemma OwnHead(s: State, c: nat)
    requires Inv(s) && c < |s.pc| && s.fw.own[c] != []
    ensures var t := s.fw.own[c][0];
            && t in s.fw.place && s.fw.place[t] == Ready(Own(c)) && t in s.fw.cpu && s.fw.cpu[t] == c
            && forall d :: 0 <= d < |s.pc| && d != c ==> Subject(s.pc[d]) != Some(t)
  {
    var t := s.fw.own[c][0];
    assert t in s.fw.own[c] && QueueOk(s.fw.place, s.fw.own[c], Ready(Own(c)));
    HeadNotSubject(s, t, c);
    assert TaskOk(s.fw, s.pc, t);
  }

  lemma SharedHead(s: State, c: nat)
    requires Inv(s) && c < |s.pc| && s.fw.shared != [] && HoldsRq(s.pc[c])
    ensures var t := s.fw.shared[0];
            && t in s.fw.place && s.fw.place[t] == Ready(Shared) && t in s.fw.cpu && s.fw.cpu[t] < |s.pc|
            && Without(s.fw.shared, t) == s.fw.shared[1..]
            && forall d :: 0 <= d < |s.pc| && d != c ==> Subject(s.pc[d]) != Some(t)
  {
    var t := s.fw.shared[0];
    assert t in s.fw.shared;
    HeadNotSubject(s, t, c);
    assert TaskOk(s.fw, s.pc, t);
    WithoutFacts(s.fw.shared, t);
  }

  lemma PickLocalKeeps(s: State, c: nat)
    requires Inv(s) && CanAdvance(s, c) && s.pc[c] == PickLocal && s.fw.own[c] != []
    ensures Inv(Next(s, c))
  {
    DropCoreOk(s, c, c, Rest);
    OwnHead(s, c);
    Moved(s, Next(s, c), c, s.fw.own[c][0], Running(c), Rest);
  }

  lemma PickNothingKeeps(s: State, c: nat)
    requires Inv(s) && CanAdvance(s, c) && s.pc[c] == PickLocal && s.fw.own[c] == []
    ensures Inv(Next(s, c))
  {
    DropCoreOk(s, c, c, PickGlobalLock);
    AloneKept(s.pc, c, PickGlobalLock);
    assert PcOk(s.fw, c, s.pc[c]);
    Settled(s, Next(s, c), c, PickGlobalLock);
  }

  lemma PickGlobalKeeps(s: State, c: nat)
    requires Inv(s) && CanAdvance(s, c) && s.pc[c] == PickGlobal
    requires s.fw.shared != [] && CpuOf(s.fw, s.fw.shared[0]) == c
    ensures Inv(Next(s, c))
  {
    DropRqOk(s, c, Rest);
    SharedHead(s, c);
    LeaveLawful(s.log, s.fw.shared);
    Moved(s, Next(s, c), c, s.fw.shared[0], Running(c), Rest);
  }

  lemma ReleaseKeeps(s: State, c: nat)
    requires Inv(s) && CanAdvance(s, c) && HoldsRq(s.pc[c]) && HeldCore(s.pc[c], c) == None
    requires forall t :: !Transit(s.pc[c], t)
    ensures Inv(DropRq(s, c, Rest))
  {
    DropRqOk(s, c, Rest);
    AloneKept(s.pc, c, Rest);
    Settled(s, DropRq(s, c, Rest), c, Rest);
  }

  // ---------------------------------------------------------------- enqueue, block, terminate

  lemma RetargetFrame(f: Fw, t: Tid, target: nat, d: nat, pc: Pc)
    requires d < |f.current| && PcOk(f, d, pc) && t in f.cpu && Subject(pc) != Some(t)
    ensures PcOk(f.(cpu := f.cpu[t := target]), d, pc)
  {
  }

  lemma RetargetWf(f: Fw, t: Tid, target: nat)
    requires Wf(f) && t in f.cpu
    ensures Wf(f.(cpu := f.cpu[t := target]))
  {
    assert f.place.Keys == f.cpu[t := target].Keys;
  }

  lemma RetargetTasks(s: State, c: nat, t: Tid, target: nat)
    requires Inv(s) && c < |s.pc| && s.pc[c] == Select(t, target)
    ensures TasksOk(s.fw.(cpu := s.fw.cpu[t := target]), s.pc)
  {
    assert PcOk(s.fw, c, s.pc[c]);
    forall x | x in s.fw.place ensures TaskOk(s.fw.(cpu := s.fw.cpu[t := target]), s.pc, x) {
      assert TaskOk(s.fw, s.pc, x);
    }
  }

  lemma RetargetKeeps(s: State, c: nat, t: Tid, target: nat)
    requires Inv(s) && c < |s.pc| && s.pc[c] == Select(t, target)
    ensures Inv(s.(fw := s.fw.(cpu := s.fw.cpu[t := target])))
  {
    OnlySubject(s, c, t);
    assert PcOk(s.fw, c, s.pc[c]);
    var f := s.fw.(cpu := s.fw.cpu[t := target]);
    RetargetWf(s.fw, t, target);
    forall d | 0 <= d < |s.pc| && d != c ensures PcOk(f, d, s.pc[d]) {
      RetargetFrame(s.fw, t, target, d, s.pc[d]);
    }
    RetargetTasks(s, c, t, target);
  }

  lemma SelectKeeps(s: State, c: nat)
    requires Inv(s) && CanAdvance(s, c) && s.pc[c].Select?
    ensures Inv(Next(s, c))
  {
    var t, target := s.pc[c].t, s.pc[c].target;
    RetargetKeeps(s, c, t, target);
    var m := s.(fw := s.fw.(cpu := s.fw.cpu[t := target]));
    DropRqOk(m, c, PutLock(t));
    AloneKept(m.pc, c, PutLock(t));
    assert PcOk(m.fw, c, m.pc[c]);
    Settled(m, Next(s, c), c, PutLock(t));
  }

  lemma PutKeeps(s: State, c: nat)
    requires Inv(s) && CanAdvance(s, c) && s.pc[c].Put?
    ensures Inv(Next(s, c))
  {
    var t := s.pc[c].t;
    OnlySubject(s, c, t);
    DropRqOk(s, c, Rest);
    ArriveLawful(s.log, s.fw.shared, t);
    assert TaskOk(s.fw, s.pc, t);
    Moved(s, Next(s, c), c, t, Ready(Shared), Rest);
  }

  lemma DropKeeps(s: State, c: nat)
    requires Inv(s) && CanAdvance(s, c) && s.pc[c].Drop?
    ensures Inv(Next(s, c))
  {
    var t, to := s.pc[c].t, s.pc[c].to;
    var n := Next(s, c);
    OnlySubject(s, c, t);
    DropRqOk(s, c, Rest);
    if t in s.fw.shared {
      var k := IndexOf(s.fw.shared, t);
      WithoutAt(s.fw.shared, k);
      WithdrawLawful(s.log, s.fw.shared, k);
    }
    assert TaskOk(s.fw, s.pc, t);
    Moved(s, n, c, t, to, Rest);
  }

  // ---------------------------------------------------------------- all steps

  lemma WaitRqKeeps(s: State, c: nat)
    requires Inv(s) && CanAdvance(s, c) && WaitsRq(s.pc[c])
    ensures Inv(Next(s, c))
  {
    var next := Next(s, c).pc[c];
    TakeRqOk(s, c, next);
    AloneKept(s.pc, c, next);
    assert PcOk(s.fw, c, s.pc[c]);
    Settled(s, Next(s, c), c, next);
  }

  lemma WaitCoreKeeps(s: State, c: nat)
    requires Inv(s) && CanAdvance(s, c) && WantedCore(s.pc[c], c).Some?
    ensures Inv(Next(s, c))
  {
    var next := Next(s, c).pc[c];
    TakeCoreOk(s, c, WantedCore(s.pc[c], c).value, next);
    AloneKept(s.pc, c, next);
    assert PcOk(s.fw, c, s.pc[c]);
    Settled(s, Next(s, c), c, next);
  }

  lemma NextKeeps(s: State, c: nat)
    requires Inv(s) && CanAdvance(s, c)
    ensures Inv(Next(s, c))
  {
    match s.pc[c]
    case Rest =>
    case PullLook => PullLookKeeps(s, c);
    case PullLocalMove(_) => PullLocalKeeps(s, c);
    case PullRemoteMove(_, _) => PullRemoteKeeps(s, c);
    case PullHomeMove(_) => PullHomeKeeps(s, c);
    case PullUnlock => ReleaseKeeps(s, c);
    case PickLocal =>
      if s.fw.own[c] == [] {
        PickNothingKeeps(s, c);
      } else {
        PickLocalKeeps(s, c);
      }
    case PickGlobal =>
      if s.fw.shared != [] && CpuOf(s.fw, s.fw.shared[0]) == c {
        PickGlobalKeeps(s, c);
      } else {
        ReleaseKeeps(s, c);
      }
    case Select(_, _) => SelectKeeps(s, c);
    case Put(_) => PutKeeps(s, c);
    case Drop(_, _) => DropKeeps(s, c);
    case _ =>
      if WaitsRq(s.pc[c]) {
        WaitRqKeeps(s, c);
      } else {
        WaitCoreKeeps(s, c);
      }
  }

  lemma SubjectExists(s: State, d: nat, t: Tid)
    requires Inv(s) && d < |s.pc| && Subject(s.pc[d]) == Some(t)
    ensures t in s.fw.place && s.fw.place[t] != Terminated
  {
    assert PcOk(s.fw, d, s.pc[d]);
  }

  lemma RunningNotSubject(s: State, c: nat, d: nat, t: Tid)
    requires Inv(s) && d < |s.pc| && d != c && t in s.fw.place && s.fw.place[t] == Running(c)
    ensures Subject(s.pc[d]) != Some(t)
  {
    assert PcOk(s.fw, d, s.pc[d]);
  }

  lemma CreateFrame(f: Fw, t: Tid, cpu: nat, d: nat, pc: Pc)
    requires d < |f.current| && Unused(f, t) && PcOk(f, d, pc)
    ensures PcOk(Create(f, t, cpu), d, pc)
  {
  }

  lemma CreateKeeps(s: State, t: Tid, cpu: nat)
    requires Inv(s) && Unused(s.fw, t) && cpu < |s.pc|
    ensures Inv(s.(fw := Create(s.fw, t, cpu)))
  {
    var m := s.(fw := Create(s.fw, t, cpu));
    CreateWf(s.fw, t, cpu);
    forall d | 0 <= d < |s.pc| ensures PcOk(m.fw, d, s.pc[d]) {
      CreateFrame(s.fw, t, cpu, d, s.pc[d]);
    }
    forall x | x in m.fw.place ensures TaskOk(m.fw, m.pc, x) {
      if x != t {
        assert TaskOk(s.fw, s.pc, x);
      }
    }
  }

  lemma NewKeeps(s: State, e: Event)
    requires Inv(s) && Enabled(s, e) && e.New?
    ensures Inv(Step(s, e))
  {
    forall d | 0 <= d < |s.pc| && Subject(s.pc[d]) == Some(e.t) ensures false {
      SubjectExists(s, d, e.t);
    }
    CreateKeeps(s, e.t, e.cpu);
    var m := s.(fw := Create(s.fw, e.t, e.cpu));
    Begun(m, e.c, if e.exec then PutLock(e.t) else SelectLock(e.t, e.target));
  }

  lemma WakeKeeps(s: State, c: nat, t: Tid)
    requires Inv(s) && c < |s.pc| && s.pc[c] == Rest && t in s.fw.place && s.fw.place[t] == Blocked
    requires forall d :: 0 <= d < |s.pc| ==> Subject(s.pc[d]) != Some(t)
    ensures Inv(Move(s, t, NotQueued))
  {
    assert TaskOk(s.fw, s.pc, t);
    assert s.pc == s.pc[c := Rest];
    Moved(s, Move(s, t, NotQueued), c, t, NotQueued, Rest);
  }

  lemma FreeMeans(s: State, t: Tid)
    requires Free(s, t)
    ensures forall d :: 0 <= d < |s.pc| ==> Subject(s.pc[d]) != Some(t)
  {
    forall d | 0 <= d < |s.pc| ensures Subject(s.pc[d]) != Some(t) {
      assert s.pc[d] in s.pc;
    }
  }

  lemma WokenKeeps(s: State, c: nat, t: Tid, target: nat)
    requires Inv(s) && c < |s.pc| && s.pc[c] == Rest && target < |s.pc|
    requires t in s.fw.place && s.fw.place[t] == NotQueued
    requires forall d :: 0 <= d < |s.pc| ==> Subject(s.pc[d]) != Some(t)
    ensures Inv(Goto(s, c, SelectLock(t, target)))
  {
    Begun(s, c, SelectLock(t, target));
  }

  lemma UnblockKeeps(s: State, e: Event)
    requires Inv(s) && Enabled(s, e) && e.Unblock?
    ensures Inv(Step(s, e))
  {
    FreeMeans(s, e.t);
    WakeKeeps(s, e.c, e.t);
    WokenKeeps(Move(s, e.t, NotQueued), e.c, e.t, e.target);
  }

  lemma RunnerFree(s: State, c: nat)
    requires Inv(s) && c < |s.pc| && s.fw.current[c].Some?
    ensures var t := s.fw.current[c].value;
            && t in s.fw.place && s.fw.place[t] == Running(c)
            && forall d :: 0 <= d < |s.pc| && d != c && Subject(s.pc[d]).Some? ==> Subject(s.pc[d]) != Some(t)
  {
    var t := s.fw.current[c].value;
    assert SlotOk(s.fw.place, s.fw.current[c], c);
    forall d | 0 <= d < |s.pc| && d != c && Subject(s.pc[d]).Some? ensures Subject(s.pc[d]) != Some(t) {
      RunningNotSubject(s, c, d, t);
    }
  }

  lemma CurrentKeeps(s: State, c: nat, next: Pc)
    requires Inv(s) && c < |s.pc| && s.pc[c] == Rest && s.fw.current[c].Some?
    requires var t := s.fw.current[c].value;
             next == PutLock(t) || next == DropLock(t, Blocked) || next == DropLock(t, Terminated)
    ensures Inv(Goto(s, c, next))
  {
    RunnerFree(s, c);
    Begun(s, c, next);
  }

  lemma DropOtherKeeps(s: State, e: Event)
    requires Inv(s) && Enabled(s, e) && e.DropOther?
    ensures Inv(Step(s, e))
  {
    var n := Step(s, e);
    forall d | 0 <= d < |s.pc| && d != e.c && Subject(s.pc[d]).Some? ensures Subject(s.pc[d]) != Some(e.t) {
      assert s.pc[d] in s.pc;
    }
    AloneNew(s.pc, e.c, n.pc[e.c]);
    TakeRqOk(s, e.c, n.pc[e.c]);
    Settled(s, n, e.c, n.pc[e.c]);
  }

  /** Every step, of any core, keeps every task in one place and every lock accounted for. */
  lemma StepKeeps(s: State, e: Event)
    requires Inv(s) && Enabled(s, e)
    ensures Inv(Step(s, e))
  {
    match e
    case NewlyIdle(c) =>
      Begun(s, c, PullLock);
    case Schedule(c) =>
      Begun(s, c, PickLock);
    case New(_, _, _, _, _) => NewKeeps(s, e);
    case Unblock(_, _, _) => UnblockKeeps(s, e);
    case Requeue(c) => CurrentKeeps(s, c, PutLock(s.fw.current[c].value));
    case DropCurrent(c, to) => CurrentKeeps(s, c, DropLock(s.fw.current[c].value, to));
    case DropOther(_, _, _) => DropOtherKeeps(s, e);
    case Advance(c) => NextKeeps(s, c);
  }
}
