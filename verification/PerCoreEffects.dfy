/**
 What each event of fifo_benchs does to the queues, the running tasks, the metadata and the
 counters, field by field, and to the metadata of no other task and the counters of no other core.
 */
module PerCoreEffects {
  import opened Queues
  import opened Framework
  import opened Words
  import opened PerCoreFifo
  import OneCore

  /** Core `c` has changed to `k`, and no other. */
  ghost predicate OnlyCore(s: State, n: State, c: nat, k: Core) {
    c < |s.core| && n.core == s.core[c := k]
  }

  /** The task `t` is at the tail of the queue of core `c`, and if it was running it no longer is. */
  ghost predicate QueuedOn(f: Fw, g: Fw, t: Tid, c: nat) {
    && c < |f.own| && g.own == f.own[c := f.own[c] + [t]] && g.current == NotRunning(f.current, t)
    && g.place == f.place[t := Ready(Own(c))] && g.shared == f.shared
  }

  lemma QueuesOn(f: Fw, t: Tid, c: nat)
    requires Wf(f) && c < |f.own| && t in f.place && !f.place[t].Ready?
    ensures QueuedOn(f, ChangeState(f, t, Ready(Own(c))), t, c)
    ensures ChangeState(f, t, Ready(Own(c))).cpu == f.cpu
  {
    var g := ChangeState(f, t, Ready(Own(c)));
    CurrentMoved(f, t, Ready(Own(c)));
    assert g.own == f.own[c := f.own[c] + [t]];
  }

  lemma BornOn(f: Fw, t: Tid, c: nat)
    requires Wf(f) && Unused(f, t) && c < |f.own|
    ensures var g := ChangeState(Create(f, t, c), t, Ready(Own(c)));
            && g.own == f.own[c := f.own[c] + [t]] && g.current == f.current
            && g.place == f.place[t := Ready(Own(c))] && g.cpu == f.cpu[t := c]
  {
    CreateWf(f, t, c);
    QueuesOn(Create(f, t, c), t, c);
    NoneRuns(f, t);
  }

  /** A new task goes to the tail of the queue of its own core for an exec, of core pid mod n otherwise. */
  lemma NewEffect(s: State, t: Tid, prev: nat, exec: bool, online: nat)
    requires Inv(s) && Enabled(s, New(t, prev, exec, online))
    ensures var n, c := Step(s, New(t, prev, exec, online)), if exec then prev else t % online;
            && c < |s.core| && |s.fw.own| == |s.fw.current| == |s.core|
            && n.fw.own == s.fw.own[c := s.fw.own[c] + [t]] && n.fw.current == s.fw.current
            && n.fw.place == s.fw.place[t := Ready(Own(c))] && n.fw.cpu == s.fw.cpu[t := c]
            && n.fp == s.fp[t := Process(IsReady, Some(c), 0, 0)]
            && OnlyCore(s, n, c, s.core[c].(totalEnqueue := Inc(s.core[c].totalEnqueue)))
  {
    var c := if exec then prev else t % online;
    BornOn(s.fw, t, c);
    var m := s.(fw := Create(s.fw, t, c), fp := s.fp[t := Process(NoState, None, 0, 0)]);
    assert Cpu(m, t) == c && Fp(m, t) == Process(NoState, None, 0, 0);
    assert m.fp[t := Process(IsReady, Some(c), 0, 0)] == s.fp[t := Process(IsReady, Some(c), 0, 0)];
  }

  /** A task that wakes goes to the tail of the queue of core pid mod n. */
  lemma UnblockEffect(s: State, t: Tid, online: nat)
    requires Inv(s) && Enabled(s, Unblock(t, online))
    ensures var n, c := Step(s, Unblock(t, online)), t % online;
            && c < |s.core| && |s.fw.own| == |s.fw.current| == |s.core|
            && n.fw.own == s.fw.own[c := s.fw.own[c] + [t]] && n.fw.current == s.fw.current
            && n.fw.place == s.fw.place[t := Ready(Own(c))] && n.fw.cpu == s.fw.cpu[t := c]
            && n.fp == s.fp[t := s.fp[t].(state := IsReady, rq := Some(c))]
            && OnlyCore(s, n, c, s.core[c].(totalEnqueue := Inc(s.core[c].totalEnqueue)))
  {
    var c := t % online;
    MovedPlaced(s, t, c);
    QueuesOn(s.fw.(cpu := s.fw.cpu[t := c]), t, c);
    NoneRuns(s.fw, t);
  }

  /** The current tasks once the one of core `c` has left it. */
  lemma LeavesCore(s: State, c: nat)
    requires Inv(s) && c < |s.core| && s.fw.current[c].Some?
    ensures var t := s.fw.current[c].value;
            && t in s.fw.place && s.fw.place[t] == Running(c) && t in s.fw.cpu && s.fw.cpu[t] == c && t in s.fp
            && NotRunning(s.fw.current, t) == s.fw.current[c := None]
  {
    Runner(s, c);
    var t := s.fw.current[c].value;
    forall d: nat | d < |s.fw.current| ensures s.fw.current[d] == Some(t) <==> s.fw.place[t] == Running(d) {
      assert SlotOk(s.fw.place, s.fw.current[d], d);
    }
  }

  lemma ExpireEffect(s: State, c: nat)
    requires Inv(s) && c < |s.core| && s.fw.current[c].Some?
    ensures c < |s.fw.own| == |s.fw.current| && s.fw.current[c].value in s.fp
    ensures var t, k := s.fw.current[c].value, s.core[c];
            var n := EnqueueTask(Refill(s, t), t, IsReadyTick);
            && n.fw.own == s.fw.own[c := s.fw.own[c] + [t]] && n.fw.current == s.fw.current[c := None]
            && n.fw.place == s.fw.place[t := Ready(Own(c))] && n.fw.cpu == s.fw.cpu
            && n.fp == s.fp[t := Process(IsReadyTick, Some(c), 0, 0)]
            && OnlyCore(s, n, c, k.(curr := None, totalEnqueue := Inc(k.totalEnqueue)))
            && Cpu(n, t) == c
  {
    LeavesCore(s, c);
    QueuesOn(s.fw, s.fw.current[c].value, c);
  }

  /**
   A tick charges the running task the time since its start; once that reaches the quantum the
   task goes to the tail of its core's queue with nothing charged and no start.
   */
  lemma TickEffect(s: State, c: nat, now: U64)
    requires Inv(s) && Enabled(s, Tick(c, now))
    ensures c < |s.fw.own| == |s.fw.current| == |s.core| && s.fw.current[c].Some? && s.fw.current[c].value in s.fp
    ensures var n, t, k := Step(s, Tick(c, now)), s.fw.current[c].value, s.core[c];
            var spent := (s.fp[t].quantum + (now - s.fp[t].lastSched)) % TWO64;
            if spent >= OneCore.QUANTUM then
              && n.fw.own == s.fw.own[c := s.fw.own[c] + [t]] && n.fw.current == s.fw.current[c := None]
              && n.fw.place == s.fw.place[t := Ready(Own(c))] && n.fw.cpu == s.fw.cpu
              && n.fp == s.fp[t := Process(IsReadyTick, Some(c), 0, 0)]
              && OnlyCore(s, n, c, Core(None, Inc(k.totalEnqueue), k.scheduleCalls, Inc(k.tickCalls)))
            else
              && n.fw == s.fw && n.fp == s.fp[t := s.fp[t].(quantum := spent)]
              && OnlyCore(s, n, c, k.(tickCalls := Inc(k.tickCalls)))
  {
    LeavesCore(s, c);
    ExpireEffect(s, c);
    var t := s.fw.current[c].value;
    assert Spent(s, t, now) == (s.fp[t].quantum + (now - s.fp[t].lastSched)) % TWO64;
  }

  /** Schedule starts the head of the core's queue with nothing charged, or leaves everything as it is. */
  lemma ScheduleEffect(s: State, c: nat, now: U64)
    requires Inv(s) && Enabled(s, Schedule(c, now))
    ensures c < |s.fw.own| == |s.fw.current| == |s.core|
    ensures var n, k := Step(s, Schedule(c, now)), s.core[c];
            if s.fw.own[c] == [] then n == s
            else
              var t := s.fw.own[c][0];
              && n.fw.own == s.fw.own[c := s.fw.own[c][1..]] && n.fw.current == s.fw.current[c := Some(t)]
              && n.fw.place == s.fw.place[t := Running(c)] && n.fw.cpu == s.fw.cpu
              && n.fp == s.fp[t := Process(IsRunning, None, 0, now)]
              && OnlyCore(s, n, c, Core(Some(t), k.totalEnqueue, Inc(k.scheduleCalls), k.tickCalls))
  {
    if s.fw.own[c] != [] {
      HeadOf(s, c);
      LocalHeadStarts(s.fw, c);
    }
  }

  /** Yield moves the running task to the tail of its core's queue and starts the head, perhaps the same task. */
  lemma YieldEffect(s: State, c: nat, now: U64)
    requires Inv(s) && Enabled(s, Yield(c, now))
    ensures c < |s.fw.own| == |s.fw.current| == |s.core| && s.fw.current[c].Some? && s.fw.current[c].value in s.fp
    ensures var n, t, k := Step(s, Yield(c, now)), s.fw.current[c].value, s.core[c];
            var q := s.fw.own[c] + [t];
            && n.fw.own == s.fw.own[c := q[1..]] && n.fw.current == s.fw.current[c := Some(q[0])]
            && n.fw.place == s.fw.place[t := Ready(Own(c))][q[0] := Running(c)] && n.fw.cpu == s.fw.cpu
            && n.fp == s.fp[t := s.fp[t].(state := IsReady, rq := Some(c))][q[0] := Process(IsRunning, None, 0, now)]
            && OnlyCore(s, n, c, Core(Some(q[0]), Inc(k.totalEnqueue), Inc(k.scheduleCalls), k.tickCalls))
  {
    LeavesCore(s, c);
    var t := s.fw.current[c].value;
    QueuesOn(s.fw, t, c);
    var m := EnqueueTask(s, t, IsReady);
    EnqueuePlaced(s, t, IsReady);
    HeadOf(m, c);
    LocalHeadStarts(m.fw, c);
  }

  /** Block takes the running task off its core, into no queue. */
  lemma BlockEffect(s: State, c: nat)
    requires Inv(s) && Enabled(s, PerCoreFifo.Block(c))
    ensures c < |s.fw.own| == |s.fw.current| == |s.core| && s.fw.current[c].Some? && s.fw.current[c].value in s.fp
    ensures var n, t := Step(s, PerCoreFifo.Block(c)), s.fw.current[c].value;
            && n.fw.own == s.fw.own && n.fw.current == s.fw.current[c := None]
            && n.fw.place == s.fw.place[t := Blocked] && n.fw.cpu == s.fw.cpu
            && n.fp == s.fp[t := s.fp[t].(state := IsBlocked, rq := None)]
            && OnlyCore(s, n, c, s.core[c].(curr := None))
  {
    LeavesCore(s, c);
    CurrentMoved(s.fw, s.fw.current[c].value, Blocked);
    OwnUnmoved(s.fw, s.fw.current[c].value, Blocked);
  }

  /** Terminate takes the task out of its queue, wherever it stands, or off its core, and frees its metadata. */
  lemma TerminateEffect(s: State, t: Tid)
    requires Inv(s) && Enabled(s, PerCoreFifo.Terminate(t))
    ensures |s.fw.own| == |s.fw.current| == |s.core| && t in s.fw.place
    ensures var n := Step(s, PerCoreFifo.Terminate(t));
            && n.fw.place == s.fw.place[t := Terminated] && n.fw.cpu == s.fw.cpu && n.fp == s.fp - {t}
            && |n.fw.own| == |s.fw.own| && n.fw.current == NotRunning(s.fw.current, t)
            && (forall c: nat :: c < |s.fw.own| ==>
                  QueueAfter(s.fw.own[c], n.fw.own[c], t, s.fw.place[t] == Ready(Own(c)), false))
            && |n.core| == |s.core|
            && forall c: nat :: c < |s.core| ==>
                 n.core[c] == if s.fw.current[c] == Some(t) then s.core[c].(curr := None) else s.core[c]
  {
    ChangeStateMeans(s.fw, t, Terminated);
    CurrentMoved(s.fw, t, Terminated);
    TerminateCores(s, t);
  }

  lemma TerminateCores(s: State, t: Tid)
    requires Inv(s) && t in s.fp
    ensures |Terminates(s, t).core| == |s.core| == |s.fw.current|
    ensures forall c: nat :: c < |s.core| ==>
              Terminates(s, t).core[c] == if s.fw.current[c] == Some(t) then s.core[c].(curr := None) else s.core[c]
  {
    assert Mirrors(s.fw.place[t], s.fw.cpu[t], s.fp[t]);
    forall c: nat | c < |s.core| ensures s.fw.current[c] == Some(t) <==> s.fw.place[t] == Running(c) {
      assert SlotOk(s.fw.place, s.fw.current[c], c);
    }
  }
}
