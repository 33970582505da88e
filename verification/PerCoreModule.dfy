/**
 The handlers of fifo_benchs as methods that write the fields of process and core objects.
 Each framework event leaves behind the state that one step of module PerCoreFifo leaves.
 */
module PerCoreHandlers {
  import opened Queues
  import opened Framework
  import opened PerCoreFifo
  import opened PerCoreEffects
  import opened Words
  import OneCore

  class FifoProcess {
    const task: Tid
    var state: TaskState
    var rq: Option<nat>
    var quantum: U64
    var lastSched: U64

    constructor (t: Tid)
      ensures task == t && state == NoState && rq == None && quantum == 0 && lastSched == 0
    {
      task, state, rq, quantum, lastSched := t, NoState, None, 0, 0;
    }

    ghost function View(): Process
      reads this
    {
      Process(state, rq, quantum, lastSched)
    }
  }

  class FifoCore {
    var curr: FifoProcess?
    var totalEnqueue: U64
    var scheduleCalls: U64
    var tickCalls: U64

    constructor ()
      ensures curr == null && totalEnqueue == 0 && scheduleCalls == 0 && tickCalls == 0
    {
      curr, totalEnqueue, scheduleCalls, tickCalls := null, 0, 0, 0;
    }

    ghost function View(): Core
      reads this
    {
      Core(if curr == null then None else Some(curr.task), totalEnqueue, scheduleCalls, tickCalls)
    }
  }

  class FifoBenchs {
    // the framework's: where each task is, its CPU, the runqueues, the task each core runs
    var place: map<Tid, Place>
    var cpu: map<Tid, nat>
    var own: seq<seq<Tid>>
    var current: seq<Option<Tid>>

    // the policy's: task metadata, per-CPU data
    var metadata: map<Tid, FifoProcess>
    const core: seq<FifoCore>

    /** Per-CPU data for `n` cores, no task yet. */
    constructor (n: nat)
      ensures Valid() && View() == Boot(n)
    {
      var cs: seq<FifoCore> := [];
      while |cs| < n
        invariant |cs| <= n
        invariant forall c :: 0 <= c < |cs| ==> fresh(cs[c]) && cs[c].View() == Core(None, 0, 0, 0)
        invariant forall c, d :: 0 <= c < d < |cs| ==> cs[c] != cs[d]
      {
        var fc := new FifoCore();
        cs := cs + [fc];
      }
      place, cpu, metadata := map[], map[], map[];
      own, current := seq(n, _ => []), seq(n, _ => None);
      core := cs;
      new;
      BootInv(n);
      assert Cores() == Boot(n).core && Processes() == map[];
      assert forall c :: 0 <= c < |core| ==> core[c].View().curr == None;
      assert View() == Boot(n);
    }

    ghost predicate Shaped()
      reads this, core, metadata.Values
    {
      && |core| == |own| == |current|
      && (forall c, d :: 0 <= c < d < |core| ==> core[c] != core[d])
      && (forall t <- metadata :: metadata[t].task == t)
    }

    ghost function Processes(): map<Tid, Process>
      reads this, metadata.Values
    {
      map t <- metadata :: metadata[t].View()
    }

    ghost function Cores(): seq<Core>
      reads core
    {
      seq(|core|, c requires 0 <= c < |core| reads core => core[c].View())
    }

    ghost function View(): State
      reads this, core, metadata.Values
    {
      State(Fw(place, cpu, [], own, current), Processes(), Cores())
    }

    /** The metadata of a task that has not ended. */
    ghost predicate Live(fp: FifoProcess)
      reads this
    {
      fp.task in metadata && metadata[fp.task] == fp
    }

    /** `_current` points to live metadata, never to metadata of a task that ended. */
    ghost predicate Alive()
      reads this, core
    {
      forall c :: 0 <= c < |core| && core[c].curr != null ==> Live(core[c].curr)
    }

    ghost predicate Valid()
      reads this, core, metadata.Values
    {
      Shaped() && Alive() && Inv(View())
    }

    method ChangeState(t: Tid, to: Place)
      requires to != Ready(Shared) && |own| == |current|
      modifies this`place, this`cpu, this`own, this`current
      ensures Fw(place, cpu, [], own, current) ==
              Framework.ChangeState(Fw(old(place), old(cpu), [], old(own), old(current)), t, to)
    {
      var f := Framework.ChangeState(Fw(place, cpu, [], own, current), t, to);
      place, cpu, own, current := f.place, f.cpu, f.own, f.current;
    }

    twostate lemma CoreWritten(c: nat)
      requires c < |core| && forall d, e :: 0 <= d < e < |core| ==> core[d] != core[e]
      requires forall d :: 0 <= d < |core| && d != c ==> unchanged(core[d])
      ensures Cores() == old(Cores())[c := core[c].View()]
    {
    }

    twostate lemma ProcessWritten(t: Tid)
      requires t in metadata && metadata == old(metadata) && forall u <- metadata :: metadata[u].task == u
      requires forall u <- metadata :: u != t ==> unchanged(metadata[u])
      ensures Processes() == old(Processes())[t := metadata[t].View()]
    {
    }

    twostate lemma ProcessGone(t: Tid)
      requires metadata == old(metadata) - {t} && forall u <- metadata :: unchanged(metadata[u])
      ensures Processes() == old(Processes()) - {t}
    {
    }

    lemma Known(t: Tid)
      requires Valid() && t in metadata
      ensures Live(metadata[t]) && metadata[t].task == t && t in cpu && cpu[t] < |core|
    {
      assert t in View().fp;
    }

    lemma KnownRunner(c: nat)
      requires Valid() && c < |core| && current[c].Some?
      ensures var t := current[c].value;
              t in metadata && Live(metadata[t]) && metadata[t].task == t && t in cpu && cpu[t] == c
              && t in View().fp && place[t] == Running(c)
    {
      Runner(View(), c);
      Known(current[c].value);
    }

    // -------------------------------------------------------------- handlers

    method Mark(fp: FifoProcess, fc: FifoCore, c: nat, state: TaskState)
      requires Shaped() && Alive() && Live(fp) && fp.task in cpu && cpu[fp.task] == c < |core| && fc == core[c]
      modifies fc, fp
      ensures Shaped() && Alive() && metadata == old(metadata)
      ensures View() == Marked(old(View()), fp.task, state)
    {
      if state == IsReadyTick {
        fc.curr := null;
      }
      fc.totalEnqueue := Inc(fc.totalEnqueue);
      fp.state := state;
      fp.rq := Some(c);
      CoreWritten(c);
      ProcessWritten(fp.task);
    }

    method FifoEnqueueTask(fp: FifoProcess, state: TaskState)
      requires Shaped() && Alive() && Live(fp) && fp.task in cpu && cpu[fp.task] < |core|
      modifies this`place, this`cpu, this`own, this`current, core, fp
      ensures Shaped() && Alive() && metadata == old(metadata)
      ensures View() == EnqueueTask(old(View()), fp.task, state)
    {
      Mark(fp, core[cpu[fp.task]], cpu[fp.task], state);
      label marked:
      ChangeState(fp.task, Ready(Own(cpu[fp.task])));
      assert Processes() == old@marked(Processes()) && Cores() == old@marked(Cores());
    }

    /** fifo_new_prepare, without the failure of its allocation. */
    method FifoNewPrepare(t: Tid, prev: nat, exec: bool, online: nat) returns (c: nat)
      requires Shaped() && Alive() && t !in metadata && online > 0
      modifies this`metadata
      ensures Shaped() && Alive() && t in metadata && fresh(metadata[t]) && metadata == old(metadata)[t := metadata[t]]
      ensures c == SelectCpu(t, prev, exec, online) && (exec ==> c == prev) && (!exec ==> c == t % online)
      ensures View() == old(View()).(fp := old(View()).fp[t := Process(NoState, None, 0, 0)])
    {
      var fp := new FifoProcess(t);
      metadata := metadata[t := fp];
      assert Processes() == old(Processes())[t := fp.View()];
      assert Cores() == old(Cores());
      c := SelectCpu(t, prev, exec, online);
    }

    method CountTick(c: nat)
      requires Shaped() && Alive() && c < |core|
      modifies core
      ensures Shaped() && Alive()
      ensures View() == PerCoreFifo.CountTick(old(View()), c)
    {
      core[c].tickCalls := Inc(core[c].tickCalls);
      CoreWritten(c);
    }

    method Expire(fp: FifoProcess)
      requires Shaped() && Alive() && Live(fp) && fp.task in cpu && cpu[fp.task] < |core|
      modifies this`place, this`cpu, this`own, this`current, core, fp
      ensures Shaped() && Alive() && metadata == old(metadata) && fp.task in cpu && cpu[fp.task] < |core|
      ensures View() == EnqueueTask(Refill(old(View()), fp.task), fp.task, IsReadyTick)
    {
      fp.quantum := 0;
      fp.lastSched := 0;
      ProcessWritten(fp.task);
      assert View() == Refill(old(View()), fp.task);
      FifoEnqueueTask(fp, IsReadyTick);
    }

    method Charge(fp: FifoProcess, now: U64)
      requires Shaped() && Alive() && Live(fp)
      modifies fp
      ensures Shaped() && Alive() && fp.quantum == Spent(old(View()), fp.task, now)
      ensures View() == Charged(old(View()), fp.task, now)
    {
      fp.quantum := (fp.quantum + (now - fp.lastSched)) % TWO64;
      ProcessWritten(fp.task);
    }

    method FifoTick(fp: FifoProcess, now: U64)
      requires Shaped() && Alive() && Live(fp) && fp.task in cpu && cpu[fp.task] < |core|
      modifies this`place, this`cpu, this`own, this`current, core, fp
      ensures Shaped() && Alive() && metadata == old(metadata)
      ensures View() == Ticked(old(View()), fp.task, now)
    {
      RefillCharged(View(), fp.task, now);
      Charge(fp, now);
      if fp.quantum >= OneCore.QUANTUM {
        Expire(fp);
      }
      CountTick(cpu[fp.task]);
    }

    method FifoSchedule(c: nat, now: U64)
      requires Shaped() && Alive() && c < |core|
      requires own[c] != [] ==> own[c][0] in metadata && own[c][0] in cpu
      modifies this`place, this`cpu, this`own, this`current, core, metadata.Values
      ensures Shaped() && Alive() && metadata == old(metadata)
      ensures View() == ScheduleOn(old(View()), c, now)
    {
      if own[c] == [] {
        return;
      }
      var fp := metadata[own[c][0]];
      Dispatch(c, fp, now);
    }

    method Dispatch(c: nat, fp: FifoProcess, now: U64)
      requires Shaped() && Alive() && c < |core| && own[c] != [] && fp.task == own[c][0] && Live(fp) && fp.task in cpu
      modifies this`place, this`cpu, this`own, this`current, core, fp
      ensures Shaped() && Alive() && metadata == old(metadata)
      ensures View() == ScheduleOn(old(View()), c, now)
    {
      fp.state := IsRunning;
      fp.rq := None;
      fp.quantum := 0;
      fp.lastSched := now;
      core[c].curr := fp;
      core[c].scheduleCalls := Inc(core[c].scheduleCalls);
      ChangeState(fp.task, Running(cpu[fp.task]));
      CoreWritten(c);
      ProcessWritten(fp.task);
    }

    method FifoBlock(fp: FifoProcess)
      requires Shaped() && Alive() && Live(fp) && fp.task in cpu && cpu[fp.task] < |core|
      modifies this`place, this`cpu, this`own, this`current, core, fp
      ensures Shaped() && Alive() && metadata == old(metadata)
      ensures View() == Blocks(old(View()), fp.task)
    {
      var c := cpu[fp.task];
      fp.state := IsBlocked;
      fp.rq := None;
      core[c].curr := null;
      ChangeState(fp.task, Blocked);
      CoreWritten(c);
      ProcessWritten(fp.task);
    }

    method Release(fp: FifoProcess)
      requires Shaped() && Alive() && Live(fp) && fp.task in cpu && cpu[fp.task] < |core|
      modifies core
      requires forall c :: 0 <= c < |core| && core[c].curr == fp ==> c == cpu[fp.task] && fp.state == IsRunning
      ensures Shaped() && Alive() && View() == Released(old(View()), fp.task)
      ensures forall c :: 0 <= c < |core| ==> core[c].curr != fp
    {
      if fp.state == IsRunning {
        core[cpu[fp.task]].curr := null;
        CoreWritten(cpu[fp.task]);
      }
    }

    /** The metadata of a running task is freed only after its core let go of it. */
    method FifoTerminate(fp: FifoProcess)
      requires Shaped() && Alive() && Live(fp) && fp.task in cpu && cpu[fp.task] < |core|
      requires forall c :: 0 <= c < |core| && core[c].curr == fp ==> c == cpu[fp.task] && fp.state == IsRunning
      modifies this`place, this`cpu, this`own, this`current, this`metadata, core
      ensures Shaped() && Alive() && metadata == old(metadata) - {fp.task}
      ensures View() == Terminates(old(View()), fp.task)
    {
      Release(fp);
      label released:
      ChangeState(fp.task, Terminated);
      metadata := metadata - {fp.task};
      assert Cores() == old@released(Cores());
      ProcessGone(fp.task);
    }

    // -------------------------------------------------------------- framework events

    /** The framework gives the task the chosen CPU, then fifo_new_place. */
    method PlaceNew(t: Tid, c: nat)
      requires Shaped() && Alive() && t in metadata && c < |core|
      modifies this`place, this`cpu, this`own, this`current, core, metadata[t]
      ensures Shaped() && Alive() && metadata == old(metadata)
      ensures View() == EnqueueTask(old(View()).(fw := Create(old(View()).fw, t, c)), t, IsReady)
    {
      place, cpu := place[t := NotQueued], cpu[t := c];
      assert Processes() == old(Processes()) && Cores() == old(Cores());
      FifoEnqueueTask(metadata[t], IsReady);
    }

    method NewTask(t: Tid, prev: nat, exec: bool, online: nat)
      requires Valid() && Enabled(View(), New(t, prev, exec, online))
      modifies this, core
      ensures Valid() && View() == Step(old(View()), New(t, prev, exec, online))
      // an exec keeps the task on its CPU
      ensures var c := if exec then prev else t % online;
              c < |old(own)| && own == old(own)[c := old(own)[c] + [t]] && cpu == old(cpu)[t := c]
    {
      NewEffect(View(), t, prev, exec, online);
      var c := FifoNewPrepare(t, prev, exec, online);
      PlaceNew(t, c);
      StepKeeps(old(View()), New(t, prev, exec, online));
    }

    /** The framework gives the task the chosen CPU, then fifo_unblock_place. */
    method PlaceUnblocked(t: Tid, c: nat)
      requires Shaped() && Alive() && t in metadata && c < |core|
      modifies this`place, this`cpu, this`own, this`current, core, metadata[t]
      ensures Shaped() && Alive() && metadata == old(metadata)
      ensures View() == EnqueueTask(old(View()).(fw := old(View()).fw.(cpu := old(cpu)[t := c])), t, IsReady)
    {
      cpu := cpu[t := c];
      assert Processes() == old(Processes()) && Cores() == old(Cores());
      FifoEnqueueTask(metadata[t], IsReady);
    }

    method UnblockTask(t: Tid, online: nat)
      requires Valid() && Enabled(View(), Unblock(t, online))
      modifies this, core, metadata.Values
      ensures Valid() && View() == Step(old(View()), Unblock(t, online))
    {
      Known(t);
      PlaceUnblocked(t, SelectCpu(t, cpu[t], false, online));
      StepKeeps(old(View()), Unblock(t, online));
    }

    method TickTask(c: nat, now: U64)
      requires Valid() && Enabled(View(), Tick(c, now))
      modifies this, core, metadata.Values
      ensures Valid() && View() == Step(old(View()), Tick(c, now))
    {
      KnownRunner(c);
      FifoTick(metadata[current[c].value], now);
      StepKeeps(old(View()), Tick(c, now));
    }

    /** fifo_yield, and the schedule of that core which follows it. */
    method YieldTask(c: nat, now: U64)
      requires Valid() && Enabled(View(), Yield(c, now))
      modifies this, core, metadata.Values
      ensures Valid() && View() == Step(old(View()), Yield(c, now))
    {
      KnownRunner(c);
      EnqueuePlaced(View(), current[c].value, IsReady);
      FifoEnqueueTask(metadata[current[c].value], IsReady);
      HeadOf(View(), c);
      FifoSchedule(c, now);
      StepKeeps(old(View()), Yield(c, now));
    }

    method ScheduleCore(c: nat, now: U64)
      requires Valid() && Enabled(View(), Schedule(c, now))
      modifies this, core, metadata.Values
      ensures Valid() && View() == Step(old(View()), Schedule(c, now))
    {
      if own[c] != [] {
        HeadOf(View(), c);
      }
      FifoSchedule(c, now);
      StepKeeps(old(View()), Schedule(c, now));
    }

    method BlockTask(c: nat)
      requires Valid() && Enabled(View(), Block(c))
      modifies this, core, metadata.Values
      ensures Valid() && View() == Step(old(View()), Block(c))
    {
      KnownRunner(c);
      FifoBlock(metadata[current[c].value]);
      StepKeeps(old(View()), Block(c));
    }

    lemma CurrOf(t: Tid, c: nat)
      requires Valid() && t in metadata && c < |core| && core[c].curr == metadata[t]
      ensures t in cpu && c == cpu[t] && metadata[t].state == IsRunning
    {
      assert View().core[c].curr == Some(t) && View().fp[t] == metadata[t].View();
      Runner(View(), c);
    }

    method TerminateTask(t: Tid)
      requires Valid() && Enabled(View(), Terminate(t))
      modifies this, core, metadata.Values
      ensures Valid() && View() == Step(old(View()), Terminate(t))
    {
      Known(t);
      forall c | 0 <= c < |core| && core[c].curr == metadata[t] ensures c == cpu[t] && metadata[t].state == IsRunning {
        CurrOf(t, c);
      }
      FifoTerminate(metadata[t]);
      StepKeeps(old(View()), Terminate(t));
    }
  }
}
