/**
 The handlers of fifo_one_queue as methods over the module's and the framework's variables,
 each run while every lock is free.  What they leave behind is what the steps of the protocol
 leave behind when no other core moves: see ScheduleAlone, NewlyIdleAlone, EnqueueAlone and
 RemoveAlone in OneQueueTheorems.
 */
module OneQueueHandlers {
  import opened Queues
  import opened Framework
  import opened Words
  import opened OneQueue
  import opened OneQueueTheorems

  lemma PulledSound(f: Fw, c: nat)
    requires Sound(f) && c < |f.own|
    ensures Sound(Pulled(f, c))
  {
    if f.shared != [] {
      var t := f.shared[0];
      assert t in f.shared && QueueOk(f.place, f.shared, Ready(Shared));
      ChangeStateSound(f, t, Ready(Own(c)));
      ChangeStateSound(f, t, Migrating(c));
      ChangeStateSound(ChangeState(f, t, Migrating(c)), t, Ready(Own(c)));
    }
  }

  lemma RetargetSound(f: Fw, t: Tid, target: nat)
    requires Sound(f) && t in f.cpu && target < |f.own|
    ensures Sound(f.(cpu := f.cpu[t := target]))
  {
    assert f.place.Keys == f.cpu[t := target].Keys;
  }

  /** Every task that has not ended has its metadata. */
  ghost predicate Known(f: Fw, known: set<Tid>) {
    forall t <- f.place :: f.place[t] != Terminated ==> t in known
  }

  lemma ChangeStateKnown(f: Fw, t: Tid, to: Place, known: set<Tid>)
    requires Known(f, known) && (t in known || to == Terminated)
    ensures Known(ChangeState(f, t, to), known)
  {
  }

  lemma PulledKnown(f: Fw, c: nat, known: set<Tid>)
    requires Sound(f) && Known(f, known)
    ensures Known(Pulled(f, c), known)
  {
    if f.shared != [] {
      var t := f.shared[0];
      assert t in f.shared && QueueOk(f.place, f.shared, Ready(Shared));
      ChangeStateKnown(f, t, Migrating(c), known);
      ChangeStateKnown(f, t, Ready(Own(c)), known);
      ChangeStateKnown(ChangeState(f, t, Migrating(c)), t, Ready(Own(c)), known);
    }
  }

  lemma PickedKnown(f: Fw, c: nat, known: set<Tid>)
    requires Sound(f) && c < |f.own| && Known(f, known)
    ensures Known(Picked(f, c), known)
    ensures f.shared != [] ==> f.shared[0] in known
  {
    if f.shared != [] {
      assert f.shared[0] in f.shared && QueueOk(f.place, f.shared, Ready(Shared));
      ChangeStateKnown(f, f.shared[0], Running(c), known);
    }
    if f.own[c] != [] {
      assert f.own[c][0] in f.own[c] && QueueOk(f.place, f.own[c], Ready(Own(c)));
      ChangeStateKnown(f, f.own[c][0], Running(c), known);
    }
  }

  /** The values of fp->state that this policy writes. */
  datatype TaskState = Unset | IsRunning | IsBlocked

  /** struct fifo_process, whose rq is NULL throughout. */
  datatype Process = Process(state: TaskState, quantum: U64)

  class FifoOneQueue {
    // the framework's view of the tasks, and the runqueues
    var place: map<Tid, Place>
    var cpu: map<Tid, nat>
    var runqueue: seq<Tid>
    var local: seq<seq<Tid>>
    var current: seq<Option<Tid>>

    // the spinlocks, with their holders
    var rqLock: Option<nat>
    var coreLock: seq<Option<nat>>

    // the policy's own: task metadata, and fifo_core._current of each core
    var fp: map<Tid, Process>
    var curr: seq<Option<Tid>>

    ghost function View(): Fw
      reads this
    {
      Fw(place, cpu, runqueue, local, current)
    }

    /** Every core is at rest and the framework's records are in order. */
    ghost predicate Valid()
      reads this
    {
      && Sound(View()) && |coreLock| == |local| == |curr| && rqLock == None && (forall l <- coreLock :: l == None)
      && Known(View(), fp.Keys)
    }

    /** `_current` of core `d` names a task that has not ended. */
    ghost predicate NamesLive(d: nat)
      reads this
    {
      d < |curr| && curr[d].Some? && curr[d].value in fp
    }

    /** `_current` of core `d` names the task that runs there. */
    ghost predicate NamesRunning(d: nat)
      reads this
    {
      d < |curr| == |current| && curr[d].Some? && curr[d] == current[d]
    }

    constructor (n: nat)
      ensures Valid() && View() == Boot(n).fw
    {
      place, cpu, runqueue := map[], map[], [];
      local, current := seq(n, _ => []), seq(n, _ => None);
      rqLock, coreLock := None, seq(n, _ => None);
      fp, curr := map[], seq(n, _ => None);
      new;
      assert QueueOk(place, runqueue, Ready(Shared));
      assert forall c: nat :: c < n ==> QueueOk(place, local[c], Ready(Own(c))) && SlotOk(place, current[c], c);
    }

    // -------------------------------------------------------------- framework primitives

    method ChangeState(t: Tid, to: Place)
      modifies this`place, this`cpu, this`runqueue, this`local, this`current
      ensures View() == Framework.ChangeState(old(View()), t, to)
    {
      var f := Framework.ChangeState(Fw(place, cpu, runqueue, local, current), t, to);
      place, cpu, runqueue, local, current := f.place, f.cpu, f.shared, f.own, f.current;
    }

    method LockRq(c: nat)
      requires rqLock == None
      modifies this`rqLock
      ensures rqLock == Some(c)
    {
      rqLock := Some(c);
    }

    method UnlockRq()
      requires rqLock.Some?
      modifies this`rqLock
      ensures rqLock == None
    {
      rqLock := None;
    }

    method LockCore(c: nat, d: nat)
      requires d < |coreLock| && coreLock[d] == None
      modifies this`coreLock
      ensures coreLock == old(coreLock)[d := Some(c)]
    {
      coreLock := coreLock[d := Some(c)];
    }

    method UnlockCore(d: nat)
      requires d < |coreLock| && coreLock[d].Some?
      modifies this`coreLock
      ensures coreLock == old(coreLock)[d := None]
    {
      coreLock := coreLock[d := None];
    }

    // -------------------------------------------------------------- handlers

    method NewlyIdle(c: nat)
      requires Valid() && c < |local| && current[c] == None
      modifies this
      ensures Valid() && coreLock == old(coreLock)
      ensures View() == Pulled(old(View()), c) && fp == old(fp) && curr == old(curr)
      ensures PulledHere(old(View()), View(), c)
    {
      Heads(c);
      PulledMeans(View(), c);
      PulledSound(View(), c);
      PulledKnown(View(), c, fp.Keys);
      Pull(c);
    }

    method Pull(c: nat)
      requires rqLock == None && c < |coreLock| && coreLock[c] == None
      requires runqueue != [] ==>
                 runqueue[0] in cpu && cpu[runqueue[0]] < |coreLock| && coreLock[cpu[runqueue[0]]] == None
      modifies this`place, this`cpu, this`runqueue, this`local, this`current, this`rqLock, this`coreLock
      ensures rqLock == None && coreLock == old(coreLock) && View() == Pulled(old(View()), c)
    {
      LockRq(c);
      if runqueue != [] {
        var next := runqueue[0];
        if cpu[next] != c {
          MigrateHere(c, next, cpu[next]);
        }
        QueueHere(c, next);
      }
      UnlockRq();
    }

    /** The remote half of fifo_newly_idle: the task changes CPU under its old core's lock. */
    method MigrateHere(c: nat, next: Tid, prev: nat)
      requires prev < |coreLock| && coreLock[prev] == None
      modifies this`place, this`cpu, this`runqueue, this`local, this`current, this`coreLock
      ensures coreLock == old(coreLock) && View() == Framework.ChangeState(old(View()), next, Migrating(c))
    {
      LockCore(c, prev);
      ChangeState(next, Migrating(c));
      UnlockCore(prev);
      assert coreLock == old(coreLock);
    }

    /** The local half: the task enters this core's queue under this core's lock. */
    method QueueHere(c: nat, next: Tid)
      requires c < |coreLock| && coreLock[c] == None
      modifies this`place, this`cpu, this`runqueue, this`local, this`current, this`coreLock
      ensures coreLock == old(coreLock) && View() == Framework.ChangeState(old(View()), next, Ready(Own(c)))
    {
      LockCore(c, c);
      ChangeState(next, Ready(Own(c)));
      UnlockCore(c);
      assert coreLock == old(coreLock);
    }

    /** What a handler reads first is there to be read. */
    lemma Heads(c: nat)
      requires Valid() && c < |local|
      ensures coreLock[c] == None
      ensures local[c] != [] ==> local[c][0] in place
      ensures runqueue != [] ==>
                && runqueue[0] in place && runqueue[0] in cpu
                && cpu[runqueue[0]] < |local| && coreLock[cpu[runqueue[0]]] == None
    {
      assert coreLock[c] in coreLock;
      if local[c] != [] {
        assert local[c][0] in local[c] && QueueOk(place, local[c], Ready(Own(c)));
      }
      if runqueue != [] {
        assert runqueue[0] in runqueue && QueueOk(place, runqueue, Ready(Shared));
        assert coreLock[cpu[runqueue[0]]] in coreLock;
      }
    }

    /** Only a task taken from the global queue is noted down as running. */
    method Schedule(c: nat)
      requires Valid() && c < |local| && current[c] == None
      modifies this
      ensures Valid() && coreLock == old(coreLock)
      ensures View() == Picked(old(View()), c) && StartedHere(old(View()), View(), c)
      ensures old(local)[c] == [] && current[c].Some? ==>
                && current[c].value in old(fp)
                && fp == old(fp)[current[c].value := old(fp)[current[c].value].(state := IsRunning)]
                && curr == old(curr)[c := current[c]]
      ensures old(local)[c] != [] || current[c].None? ==> fp == old(fp) && curr == old(curr)
      // the running task is named if it came from the global queue, or was the one named before
      ensures NamesRunning(c) <==> current[c].Some? && (old(local)[c] == [] || old(curr)[c] == current[c])
    {
      Heads(c);
      PickedMeans(View(), c);
      PickedSound(View(), c);
      PickedKnown(View(), c, fp.Keys);
      Pick(c);
    }

    method Pick(c: nat)
      requires rqLock == None && c < |coreLock| == |local| == |curr| == |current| && coreLock[c] == None &&
               current[c] == None
      requires runqueue != [] ==> runqueue[0] in cpu && runqueue[0] in fp
      modifies this
      ensures rqLock == None && coreLock == old(coreLock) && View() == Picked(old(View()), c)
      ensures current[c].Some? && old(local)[c] == [] ==>
                && current[c].value in old(fp)
                && fp == old(fp)[current[c].value := old(fp)[current[c].value].(state := IsRunning)]
                && curr == old(curr)[c := current[c]]
      ensures old(local)[c] != [] || current[c].None? ==> fp == old(fp) && curr == old(curr)
    {
      var found := PickLocally(c);
      if found {
        return;
      }
      LockRq(c);
      if runqueue != [] && cpu[runqueue[0]] == c {
        EnqueueRunningTask(runqueue[0], c);
      }
      UnlockRq();
    }

    method EnqueueRunningTask(next: Tid, c: nat)
      requires c < |curr| && next in fp
      modifies this`place, this`cpu, this`runqueue, this`local, this`current, this`fp, this`curr
      ensures View() == Framework.ChangeState(old(View()), next, Running(c))
      ensures fp == old(fp)[next := old(fp)[next].(state := IsRunning)] && curr == old(curr)[c := Some(next)]
    {
      fp := fp[next := fp[next].(state := IsRunning)];
      curr := curr[c := Some(next)];
      ChangeState(next, Running(c));
    }

    /** The first half of fifo_schedule, under this core's lock. */
    method PickLocally(c: nat) returns (found: bool)
      requires c < |coreLock| == |local| && coreLock[c] == None
      modifies this`place, this`cpu, this`runqueue, this`local, this`current, this`coreLock
      ensures coreLock == old(coreLock) && found == (old(local)[c] != [])
      ensures View() == if found then Framework.ChangeState(old(View()), old(local)[c][0], Running(c)) else old(View())
    {
      LockCore(c, c);
      found := local[c] != [];
      if found {
        ChangeState(local[c][0], Running(c));
      }
      UnlockCore(c);
      assert coreLock == old(coreLock);
    }

    /** select_cpu: the CPU it answers is whatever the unset variable holds, here `choice`. */
    method SelectCpu(c: nat, choice: nat) returns (target: nat)
      requires rqLock == None
      modifies this`rqLock
      ensures rqLock == None && target == choice
    {
      LockRq(c);
      target := choice;
      UnlockRq();
    }

    /** fifo_new_prepare, the framework gives the task the chosen CPU, then fifo_new_place. */
    method NewTask(c: nat, t: Tid, prev: nat, exec: bool, choice: nat)
      requires Valid() && Unused(View(), t) && c < |local| && prev < |local| && choice < |local|
      modifies this
      ensures Valid() && coreLock == old(coreLock) && curr == old(curr)
      ensures fp == old(fp)[t := Process(Unset, 0)]
      ensures View() == Framework.ChangeState(Create(old(View()), t, if exec then prev else choice), t, Ready(Shared))
      ensures BornLast(old(View()), View(), t, if exec then prev else choice)
    {
      BornLastMeans(View(), t, if exec then prev else choice);
      fp := fp[t := Process(Unset, 0)];
      var target := prev;
      if !exec {
        target := SelectCpu(c, choice);
      }
      CreateWf(View(), t, target);
      place, cpu := place[t := NotQueued], cpu[t := target];
      assert View() == Create(old(View()), t, target);
      EnqueueLock(c, t);
    }

    /** fifo_unblock_prepare, the framework gives the task the chosen CPU, then fifo_unblock_place. */
    method UnblockTask(c: nat, t: Tid, choice: nat)
      requires Valid() && t in place && place[t] == Blocked && c < |local| && choice < |local|
      modifies this
      ensures Valid() && coreLock == old(coreLock) && fp == old(fp) && curr == old(curr)
      ensures View() == Framework.ChangeState(old(View()).(cpu := old(cpu)[t := choice]), t, Ready(Shared))
      ensures QueuedLast(old(View()).(cpu := old(cpu)[t := choice]), View(), t)
    {
      var target := SelectCpu(c, choice);
      RetargetSound(View(), t, target);
      cpu := cpu[t := target];
      EnqueueLock(c, t);
    }

    /** change_state under the global lock. */
    method LockedChange(c: nat, t: Tid, to: Place)
      requires rqLock == None
      modifies this`place, this`cpu, this`runqueue, this`local, this`current, this`rqLock
      ensures rqLock == None && View() == Framework.ChangeState(old(View()), t, to)
    {
      LockRq(c);
      ChangeState(t, to);
      UnlockRq();
    }

    /** The same for a task that is blocked or ends. */
    method LockedRemove(c: nat, t: Tid, to: Place)
      requires rqLock == None && Sound(View()) && t in place && to in {Blocked, Terminated}
      modifies this`place, this`cpu, this`runqueue, this`local, this`current, this`rqLock
      ensures rqLock == None && Sound(View()) && View() == Framework.ChangeState(old(View()), t, to)
      ensures current == NotRunning(old(current), t)
      ensures (forall d: nat :: old(place)[t] != Ready(Own(d))) ==> TakenAway(old(View()), View(), t, to)
    {
      ChangeStateSound(View(), t, to);
      CurrentMoved(View(), t, to);
      if forall d: nat :: place[t] != Ready(Own(d)) {
        TakenAwayMeans(View(), t, to);
      }
      LockedChange(c, t, to);
    }

    /** fifo_enqueue_lock; its callers never pass RUNNING, so it leaves `_current` alone. */
    method EnqueueLock(c: nat, t: Tid)
      requires Valid() && c < |local| && t in place && place[t] != Terminated
      modifies this
      ensures Valid() && coreLock == old(coreLock) && fp == old(fp) && curr == old(curr)
      ensures View() == Framework.ChangeState(old(View()), t, Ready(Shared))
      ensures !old(place)[t].Ready? ==> QueuedLast(old(View()), View(), t)
    {
      ChangeStateSound(View(), t, Ready(Shared));
      if !place[t].Ready? {
        QueuedLastMeans(View(), t);
      }
      LockedChange(c, t, Ready(Shared));
    }

    /** fifo_tick counts ticks; `x % 20 * NSEC_PER_MSEC` is 0 on every twentieth. */
    method Tick(c: nat, t: Tid)
      requires Valid() && c < |local| && current[c] == Some(t)
      modifies this
      ensures Valid() && coreLock == old(coreLock) && curr == old(curr) && t in old(fp)
      ensures var q := Inc(old(fp)[t].quantum);
              && fp == old(fp)[t := old(fp)[t].(quantum := q)]
              && View() == if q % 20 == 0 then Framework.ChangeState(old(View()), t, Ready(Shared)) else old(View())
      ensures if Inc(old(fp)[t].quantum) % 20 == 0 then QueuedLast(old(View()), View(), t) else View() == old(View())
    {
      assert SlotOk(place, current[c], c);
      fp := fp[t := fp[t].(quantum := Inc(fp[t].quantum))];
      if fp[t].quantum % 20 * 1_000_000 == 0 {
        EnqueueLock(c, t);
      }
    }

    /** fifo_block, run on core `c`: `_current` of that core is cleared only if the task is noted as running. */
    method Block(c: nat, t: Tid)
      requires Valid() && c < |local| && t in place && place[t] != Terminated
      modifies this
      ensures Valid() && coreLock == old(coreLock) && t in old(fp)
      ensures curr == if old(fp)[t].state == IsRunning then old(curr)[c := None] else old(curr)
      ensures fp == old(fp)[t := old(fp)[t].(state := IsBlocked)]
      ensures View() == Framework.ChangeState(old(View()), t, Blocked)
      ensures (forall d: nat :: old(place)[t] != Ready(Own(d))) ==> TakenAway(old(View()), View(), t, Blocked)
    {
      ChangeStateKnown(View(), t, Blocked, fp.Keys);
      if fp[t].state == IsRunning {
        curr := curr[c := None];
      }
      fp := fp[t := fp[t].(state := IsBlocked)];
      LockedRemove(c, t, Blocked);
    }

    /**
     fifo_terminate frees the metadata and leaves `_current` as it is: a core's `_current` goes
     on naming a live task, or the running one, if and only if it did and did not name `t`.
     */
    method Terminate(c: nat, t: Tid)
      requires Valid() && c < |local| && t in place && place[t] != Terminated
      modifies this
      ensures Valid() && coreLock == old(coreLock) && curr == old(curr)
      ensures fp == old(fp) - {t}
      ensures View() == Framework.ChangeState(old(View()), t, Terminated)
      ensures (forall d: nat :: old(place)[t] != Ready(Own(d))) ==> TakenAway(old(View()), View(), t, Terminated)
      ensures forall d: nat :: NamesLive(d) <==> old(NamesLive(d)) && old(curr)[d] != Some(t)
      ensures forall d: nat :: NamesRunning(d) <==> old(NamesRunning(d)) && old(curr)[d] != Some(t)
    {
      LockedRemove(c, t, Terminated);
      fp := fp - {t};
    }
  }

  /** One core, one task: in the global queue, on the core, ended. */
  function LifeQueued(t: Tid): Fw {
    Fw(map[t := Ready(Shared)], map[t := 0], [t], [[]], [None])
  }

  function LifeRunning(t: Tid): Fw {
    Fw(map[t := Running(0)], map[t := 0], [], [[]], [Some(t)])
  }

  lemma LifeBegins(t: Tid)
    ensures Framework.ChangeState(Create(Boot(1).fw, t, 0), t, Ready(Shared)) == LifeQueued(t)
  {
    var a := Framework.ChangeState(Create(Boot(1).fw, t, 0), t, Ready(Shared));
    assert a.own == [[]] && a.current == [None];
  }

  lemma LifeStarts(t: Tid)
    ensures Picked(LifeQueued(t), 0) == LifeRunning(t)
  {
    var b := Framework.ChangeState(LifeQueued(t), t, Running(0));
    assert b.own == [[]] && b.current == [Some(t)];
    assert Without([t], t) == [];
  }

  lemma LifeEnds(t: Tid)
    ensures Framework.ChangeState(LifeRunning(t), t, Terminated).place == map[t := Terminated]
    ensures Framework.ChangeState(LifeRunning(t), t, Terminated).current == [None]
  {
    assert Framework.ChangeState(LifeRunning(t), t, Terminated).current == [None];
  }

  method CreatedOnce(t: Tid) returns (q: FifoOneQueue)
    ensures fresh(q) && q.Valid() && q.View() == LifeQueued(t)
  {
    LifeBegins(t);
    q := new FifoOneQueue(1);
    q.NewTask(0, t, 0, true, 0);
  }

  method StartedOnce(t: Tid) returns (q: FifoOneQueue)
    ensures fresh(q) && q.Valid() && q.View() == LifeRunning(t) && q.curr == [Some(t)]
  {
    LifeStarts(t);
    q := CreatedOnce(t);
    q.Schedule(0);
    assert q.current == [Some(t)] && q.curr[0] == Some(t);
  }

  /** In that life `_current` of the core ends up naming the task though its metadata is gone. */
  method EndedButNamed(t: Tid) returns (q: FifoOneQueue)
    ensures fresh(q) && q.curr == [Some(t)] && t !in q.fp && q.current == [None] && q.place == map[t := Terminated]
  {
    LifeEnds(t);
    q := StartedOnce(t);
    q.Terminate(0, t);
  }
}
