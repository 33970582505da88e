/**
 The handlers of global_fifo as methods over the module's and the framework's variables, each
 run while every lock is free.  What they leave behind is what the steps of the protocol leave
 behind when no other core moves: see ScheduleAlone, NewlyIdleAlone, TickAlone, PutAlone and
 BlockAlone in GlobalFifoTheorems.
 */
module GlobalFifoHandlers {
  import opened Queues
  import opened Framework
  import opened Words
  import opened GlobalFifo
  import opened GlobalFifoTheorems

  lemma PulledSound(f: Fw, c: nat)
    requires Sound(f) && c < |f.own|
    ensures Sound(Pulled(f, c))
  {
    if f.shared != [] {
      var t := f.shared[0];
      assert t in f.shared && QueueOk(f.place, f.shared, Ready(Shared));
      ChangeStateSound(f, t, Held(c));
      var g := ChangeState(f, t, Held(c));
      ChangeStateSound(g, t, Ready(Own(c)));
      ChangeStateSound(g, t, Migrating(c));
      ChangeStateSound(ChangeState(g, t, Migrating(c)), t, Ready(Own(c)));
    }
  }

  const QUANTUM: int := 20_000_000
  const TASK_RUNNING: int := 0           // the kernel's, not the framework's
  const IPANEMA_NOT_QUEUED: int := 0
  const IPANEMA_RUNNING: int := 2
  const IPANEMA_TERMINATED: int := 5

  /** struct fifo_process, whose rq is NULL throughout. */
  datatype Process = Process(state: int, quantum: U64, lastSched: U64)

  /** The charge after a tick, as the handler computes it: the difference is taken the wrong way round. */
  function Spent(p: Process, now: U64): U64 {
    (p.quantum + (p.lastSched - now)) % TWO64
  }

  /** What was charged before and the time of the last note add up to the charge and the time now, in words. */
  lemma SpentBackwards(p: Process, now: U64)
    ensures (Spent(p, now) + now) % TWO64 == (p.quantum + p.lastSched) % TWO64
  {
    ModAdd(p.quantum + (p.lastSched - now), now);
  }

  /** So the first tick after a start ends the quantum, unless it falls on the same nanosecond. */
  lemma FirstTickExpires(p: Process, now: U64)
    requires p.quantum == 0 && p.lastSched <= now <= p.lastSched + TWO64 - QUANTUM
    ensures Spent(p, now) >= QUANTUM <==> p.lastSched < now
  {
    ModNear(p.lastSched - now);
  }

  /** The records are in order, and every task has its metadata. */
  ghost predicate Filed(f: Fw, known: set<Tid>) {
    Sound(f) && f.place.Keys <= known
  }

  lemma HeadFiled(f: Fw)
    requires Sound(f) && f.shared != []
    ensures var t := f.shared[0]; t in f.place && t in f.cpu && f.cpu[t] < |f.own|
  {
    assert f.shared[0] in f.shared && QueueOk(f.place, f.shared, Ready(Shared));
  }

  lemma PulledFiled(f: Fw, c: nat, known: set<Tid>)
    requires Filed(f, known) && c < |f.own|
    ensures Filed(Pulled(f, c), known)
  {
    PulledSound(f, c);
    if f.shared != [] {
      HeadFiled(f);
    }
  }

  lemma PickedFiled(f: Fw, c: nat, known: set<Tid>)
    requires Filed(f, known) && c < |f.own| && f.current[c] == None
    ensures Filed(Picked(f, c), known)
  {
    PickedSound(f, c);
    if f.own[c] != [] {
      assert f.own[c][0] in f.own[c] && QueueOk(f.place, f.own[c], Ready(Own(c)));
    } else if f.shared != [] {
      HeadFiled(f);
    }
  }

  lemma TickedFiled(f: Fw, c: nat, t: Tid, known: set<Tid>)
    requires Filed(f, known) && c < |f.own| && f.current[c] == Some(t)
    ensures t in f.place && Filed(Ticked(f, c, t), known)
  {
    assert SlotOk(f.place, f.current[c], c);
    ChangeStateSound(f, t, if f.own[c] == [] then Ready(Own(c)) else Ready(Shared));
  }

  class FifoGlobal {
    var place: map<Tid, Place>
    var cpu: map<Tid, nat>
    var runqueue: seq<Tid>
    var local: seq<seq<Tid>>
    var current: seq<Option<Tid>>
    var rqLock: Option<nat>
    var coreLock: seq<Option<nat>>

    // the policy's own: task metadata, and fifo_core._current of each core
    var fp: map<Tid, Process>
    var curr: seq<Option<Tid>>

    ghost function View(): Fw
      reads this
    {
      Fw(place, cpu, runqueue, local, current)
    }

    /** Every core is at rest and the framework's records are in order. */
    ghost predicate Valid()
      reads this
    {
      && Filed(View(), fp.Keys)
      && |coreLock| == |local| == |curr| && rqLock == None && forall l <- coreLock :: l == None
    }

    /** The state IPANEMA_RUNNING, which fifo_terminate looks for, is never written: schedule writes TASK_RUNNING. */
    ghost predicate NeverMarked()
      reads this
    {
      forall t <- fp :: fp[t].state != IPANEMA_RUNNING
    }

    constructor (n: nat)
      ensures Valid() && NeverMarked() && View() == Boot(n).fw
    {
      place, cpu, runqueue := map[], map[], [];
      local, current := seq(n, _ => []), seq(n, _ => None);
      rqLock, coreLock := None, seq(n, _ => None);
      fp, curr := map[], seq(n, _ => None);
      new;
      assert QueueOk(place, runqueue, Ready(Shared));
      assert forall c: nat :: c < n ==> QueueOk(place, local[c], Ready(Own(c))) && SlotOk(place, current[c], c);
    }

    method ChangeState(t: Tid, to: Place)
      modifies this`place, this`cpu, this`runqueue, this`local, this`current
      ensures View() == Framework.ChangeState(old(View()), t, to)
    {
      var f := Framework.ChangeState(Fw(place, cpu, runqueue, local, current), t, to);
      place, cpu, runqueue, local, current := f.place, f.cpu, f.shared, f.own, f.current;
    }

    method LockRq(c: nat)
      requires rqLock == None
      modifies this`rqLock
      ensures rqLock == Some(c)
    {
      rqLock := Some(c);
    }

    method UnlockRq()
      requires rqLock.Some?
      modifies this`rqLock
      ensures rqLock == None
    {
      rqLock := None;
    }

    /** ipanema_double_lock_core: the lower core first. */
    method DoubleLock(c: nat, d: nat)
      requires c != d && c < |coreLock| && d < |coreLock| && coreLock[c] == coreLock[d] == None
      modifies this`coreLock
      ensures coreLock == old(coreLock)[c := Some(c)][d := Some(c)]
    {
      coreLock := coreLock[Min(c, d) := Some(c)];
      coreLock := coreLock[Max(c, d) := Some(c)];
    }

    method Unlock(d: nat)
      requires d < |coreLock| && coreLock[d].Some?
      modifies this`coreLock
      ensures coreLock == old(coreLock)[d := None]
    {
      coreLock := coreLock[d := None];
    }

    method NewlyIdle(c: nat)
      requires Valid() && c < |local|
      modifies this
      ensures Valid() && coreLock == old(coreLock)
      ensures View() == Pulled(old(View()), c) && fp == old(fp) && curr == old(curr)
      ensures PulledHere(old(View()), View(), c)
    {
      PulledMeans(View(), c);
      PulledFiled(View(), c, fp.Keys);
      if runqueue != [] {
        HeadFiled(View());
      }
      Pull(c);
    }

    method Pull(c: nat)
      requires rqLock == None && c < |coreLock| && forall l <- coreLock :: l == None
      requires runqueue != [] ==> runqueue[0] in cpu && cpu[runqueue[0]] < |coreLock|
      modifies this`place, this`cpu, this`runqueue, this`local, this`current, this`rqLock, this`coreLock
      ensures rqLock == None && coreLock == old(coreLock) && View() == Pulled(old(View()), c)
    {
      LockRq(c);
      if runqueue == [] {
        UnlockRq();
        return;
      }
      var next := runqueue[0];
      ChangeState(next, Held(c));
      UnlockRq();
      if cpu[next] == c {
        ChangeState(next, Ready(Own(c)));
      } else {
        MigrateHere(c, next, cpu[next]);
      }
    }

    /** The remote case of fifo_newly_idle, under both core locks. */
    method MigrateHere(c: nat, next: Tid, from: nat)
      requires c != from && c < |coreLock| && from < |coreLock| && (forall l <- coreLock :: l == None)
      modifies this`place, this`cpu, this`runqueue, this`local, this`current, this`coreLock
      ensures coreLock == old(coreLock)
      ensures View() ==
              Framework.ChangeState(Framework.ChangeState(old(View()), next, Migrating(c)), next, Ready(Own(c)))
    {
      assert coreLock[c] in coreLock && coreLock[from] in coreLock;
      DoubleLock(c, from);
      ChangeState(next, Migrating(c));
      ChangeState(next, Ready(Own(c)));
      Unlock(from);
      Unlock(c);
      assert coreLock == old(coreLock);
    }

    method Schedule(c: nat, now: U64)
      requires Valid() && c < |local| && current[c] == None
      modifies this
      ensures Valid() && coreLock == old(coreLock)
      ensures View() == Picked(old(View()), c) && StartedHere(old(View()), View(), c)
      ensures current[c] == None ==> fp == old(fp) && curr == old(curr)
      ensures current[c].Some? ==>
                && fp == old(fp)[current[c].value := Process(TASK_RUNNING, 0, now)]
                && curr == old(curr)[c := current[c]]
      ensures old(NeverMarked()) ==> NeverMarked()
    {
      PickedMeans(View(), c);
      PickedFiled(View(), c, fp.Keys);
      if runqueue != [] {
        HeadFiled(View());
      }
      Pick(c, now);
    }

    method Pick(c: nat, now: U64)
      requires rqLock == None && c < |local| == |curr| == |current| && current[c] == None
      requires runqueue != [] ==> runqueue[0] in cpu
      modifies this`place, this`cpu, this`runqueue, this`local, this`current, this`rqLock, this`fp, this`curr
      ensures rqLock == None && View() == Picked(old(View()), c)
      ensures current[c] == None ==> fp == old(fp) && curr == old(curr)
      ensures current[c].Some? ==>
                && fp == old(fp)[current[c].value := Process(TASK_RUNNING, 0, now)]
                && curr == old(curr)[c := current[c]]
    {
      if local[c] != [] {
        Start(c, local[c][0], now);
        return;
      }
      LockRq(c);
      if runqueue != [] && cpu[runqueue[0]] == c {
        Start(c, runqueue[0], now);
      }
      UnlockRq();
    }

    method Start(c: nat, t: Tid, now: U64)
      requires c < |curr| == |local|
      modifies this`place, this`cpu, this`runqueue, this`local, this`current, this`fp, this`curr
      ensures View() == Framework.ChangeState(old(View()), t, Running(c))
      ensures fp == old(fp)[t := Process(TASK_RUNNING, 0, now)] && curr == old(curr)[c := Some(t)]
    {
      fp := fp[t := Process(TASK_RUNNING, 0, now)];
      curr := curr[c := Some(t)];
      ChangeState(t, Running(c));
    }

    /**
     fifo_tick; `c` is the core the event came from.  Once the quantum is used up the task waits in
     its core's queue if that is empty, and at the tail of the global queue otherwise.
     */
    method Tick(c: nat, t: Tid, now: U64)
      requires Valid() && c < |local| && current[c] == Some(t)
      modifies this
      ensures Valid() && coreLock == old(coreLock) && curr == old(curr) && t in old(fp)
      ensures var p := old(fp)[t];
              var spent := Spent(p, now);
              && fp == old(fp)[t := p.(quantum := if spent >= QUANTUM then 0 else spent, lastSched := now)]
              && (spent < QUANTUM ==> View() == old(View()))
              && (spent >= QUANTUM ==> View() == Ticked(old(View()), c, t) && QuantumOver(old(View()), View(), c, t))
      ensures old(NeverMarked()) ==> NeverMarked()
    {
      TickedMeans(View(), c, t);
      TickedFiled(View(), c, t, fp.Keys);
      ChargeTick(c, t, now);
    }

    method ChargeTick(c: nat, t: Tid, now: U64)
      requires rqLock == None && c < |local| && t in fp
      modifies this`place, this`cpu, this`runqueue, this`local, this`current, this`rqLock, this`fp
      ensures rqLock == None
      ensures var p := old(fp)[t];
              var spent := Spent(p, now);
              && fp == old(fp)[t := p.(quantum := if spent >= QUANTUM then 0 else spent, lastSched := now)]
              && View() == if spent >= QUANTUM then Ticked(old(View()), c, t) else old(View())
    {
      var p := fp[t];
      p := p.(quantum := (p.quantum + (p.lastSched - now)) % TWO64, lastSched := now);
      if p.quantum >= QUANTUM {
        fp := fp[t := p.(quantum := 0)];
        TickExpired(c, t);
      } else {
        fp := fp[t := p];
      }
    }

    /** The rest of fifo_tick once the quantum is used up. */
    method TickExpired(c: nat, t: Tid)
      requires rqLock == None && c < |local|
      modifies this`place, this`cpu, this`runqueue, this`local, this`current, this`rqLock
      ensures rqLock == None && View() == Ticked(old(View()), c, t)
    {
      if local[c] == [] {
        ChangeState(t, Ready(Own(c)));
        return;
      }
      LockRq(c);
      ChangeState(t, Ready(Shared));
      UnlockRq();
    }

    /** fifo_new_prepare, the framework gives the task the chosen CPU, then fifo_new_place; pids name tasks. */
    method NewTask(c: nat, t: Tid, online: nat)
      requires Valid() && Unused(View(), t) && 0 < online <= |local|
      modifies this
      ensures Valid() && coreLock == old(coreLock) && curr == old(curr)
      ensures fp == old(fp)[t := Process(IPANEMA_NOT_QUEUED, 0, 0)]
      ensures View() == Framework.ChangeState(Create(old(View()), t, t % online), t, Ready(Shared))
      ensures BornLast(old(View()), View(), t, t % online)
      ensures old(NeverMarked()) ==> NeverMarked()
    {
      BornLastMeans(View(), t, t % online);
      CreateWf(View(), t, t % online);
      fp := fp[t := Process(IPANEMA_NOT_QUEUED, 0, 0)];
      place, cpu := place[t := NotQueued], cpu[t := t % online];
      assert View() == Create(old(View()), t, t % online);
      Requeue(c, t);
    }

    /** fifo_new_place, fifo_unblock_place and fifo_yield. */
    method Requeue(c: nat, t: Tid)
      requires Valid() && t in place
      modifies this
      ensures Valid() && coreLock == old(coreLock) && fp == old(fp) && curr == old(curr)
      ensures View() == Framework.ChangeState(old(View()), t, Ready(Shared))
      ensures !old(place)[t].Ready? ==> QueuedLast(old(View()), View(), t)
    {
      if !place[t].Ready? {
        QueuedLastMeans(View(), t);
      }
      ChangeStateSound(View(), t, Ready(Shared));
      LockRq(c);
      ChangeState(t, Ready(Shared));
      UnlockRq();
    }

    /** change_state for a task that is blocked or ends. */
    method Remove(t: Tid, to: Place)
      requires Sound(View()) && t in place && to in {Blocked, Terminated}
      modifies this`place, this`cpu, this`runqueue, this`local, this`current
      ensures Sound(View()) && View() == Framework.ChangeState(old(View()), t, to)
      ensures (forall d: nat :: old(place)[t] != Ready(Own(d))) ==> TakenAway(old(View()), View(), t, to)
    {
      ChangeStateSound(View(), t, to);
      if forall d: nat :: place[t] != Ready(Own(d)) {
        TakenAwayMeans(View(), t, to);
      }
      ChangeState(t, to);
    }

    method Block(c: nat, t: Tid)
      requires Valid() && t in place
      modifies this
      ensures Valid() && coreLock == old(coreLock) && fp == old(fp) && curr == old(curr)
      ensures View() == Framework.ChangeState(old(View()), t, Blocked)
      ensures (forall d: nat :: old(place)[t] != Ready(Own(d))) ==> TakenAway(old(View()), View(), t, Blocked)
    {
      LockRq(c);
      Remove(t, Blocked);
      UnlockRq();
    }

    /** No lock is taken. */
    method Terminate(t: Tid)
      requires Valid() && t in place && cpu[t] < |local|
      modifies this
      ensures Valid() && coreLock == old(coreLock) && t in old(fp)
      ensures curr == if old(fp)[t].state == IPANEMA_RUNNING then old(curr)[old(cpu)[t] := None] else old(curr)
      ensures old(NeverMarked()) ==> NeverMarked() && curr == old(curr)
      ensures fp == old(fp)[t := old(fp)[t].(state := IPANEMA_TERMINATED)]
      ensures View() == Framework.ChangeState(old(View()), t, Terminated)
      ensures (forall d: nat :: old(place)[t] != Ready(Own(d))) ==> TakenAway(old(View()), View(), t, Terminated)
    {
      if fp[t].state == IPANEMA_RUNNING {
        curr := curr[cpu[t] := None];
      }
      fp := fp[t := fp[t].(state := IPANEMA_TERMINATED)];
      Remove(t, Terminated);
    }
  }
}
