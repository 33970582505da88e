/**
 The rusty policy: the idle masks it claims CPUs from, the choice of a CPU for a task, the
 choice of a domain, and the table of domains built when the module loads.
 CPU masks are sets of CPU numbers.
 */
module RustyPolicy {
  import opened Queues
  import opened Words
  import opened RustyDomains

  const EBUSY: int := -16
  const ENOENT: int := -2

  datatype Task = Task(allowed: set<int>, cpu: int)

  /** A level of the CPU topology: its CPUs, and whether it is a NUMA level. */
  datatype Level = Level(cores: set<int>, numa: bool)

  /** What the waking CPU shows: its number, whether its current task is exiting, its queue length. */
  datatype Waker = Waker(cpu: int, exiting: bool, queued: nat)

  class RustyProcess {
    var cpumask: set<int>
    var tmpCpumask: set<int>
    var domMask: set<int>
    var domId: int
    var dispatchLocal: bool
    var allCpus: bool

    constructor ()
      ensures cpumask == {} && tmpCpumask == {} && domMask == {} && domId == 0 && !dispatchLocal && !allCpus
    {
      cpumask, tmpCpumask, domMask := {}, {}, {};
      domId, dispatchLocal, allCpus := 0, false, false;
    }
  }

  class Rusty {
    const nrCpus: nat
    const smtActive: bool
    const siblings: seq<set<int>>    // cpu_smt_mask
    const directGreedyNuma: bool

    var idleCpu: set<int>
    var idleSmt: set<int>
    var directGreedy: set<int>       // direct_greedy_cpumask; a null mask is an empty one
    var allCpumask: set<int>

    var doms: seq<set<int>>          // dom_data[d]->topology->cores
    var domOf: seq<int>              // core.dom_id, per CPU
    var domCursor: seq<int>          // core.dom_rr_cur as a 32-bit word, per CPU

    ghost predicate Valid()
      reads this
    {
      && |siblings| == |domOf| == |domCursor| == nrCpus
      && InRange(idleCpu) && InRange(idleSmt) && InRange(directGreedy) && InRange(allCpumask)
      && (forall s <- siblings :: InRange(s))
      && (forall d <- doms :: InRange(d))
      && |doms| <= MAX_DOMS
      && (forall i :: 0 <= i < |domCursor| ==> 0 <= domCursor[i] < TWO32)
    }

    ghost predicate InRange(mask: set<int>) {
      forall c <- mask :: 0 <= c < nrCpus
    }

    /** What is left of the SMT mask once `c` has been tried. */
    function SmtWithout(smt: set<int>, c: int): set<int> {
      if !smtActive || c < 0 || c >= |siblings| then smt
      else if siblings[c] * smt != {} then smt - siblings[c]
      else smt - {c}
    }

    // -------------------------------------------------------------- a CPU goes idle, or stops being idle

    /** With SMT the CPU mask is not told. */
    method EnterIdle(c: int)
      requires Valid() && 0 <= c < nrCpus
      modifies this`idleCpu, this`idleSmt
      ensures Valid()
      ensures idleSmt == (if smtActive then old(idleSmt) + {c} else old(idleSmt))
      ensures idleCpu == (if smtActive then old(idleCpu) else old(idleCpu) + {c})
    {
      if smtActive {
        idleSmt := idleSmt + {c};
      } else {
        idleCpu := idleCpu + {c};
      }
    }

    method ExitIdle(c: int)
      requires Valid() && 0 <= c < nrCpus
      modifies this`idleCpu, this`idleSmt
      ensures Valid()
      ensures idleSmt == (if smtActive then old(idleSmt) - {c} else old(idleSmt))
      ensures idleCpu == (if smtActive then old(idleCpu) else old(idleCpu) - {c})
    {
      if smtActive {
        idleSmt := idleSmt - {c};
      } else {
        idleCpu := idleCpu - {c};
      }
    }

    // -------------------------------------------------------------- claiming an idle CPU

    method TestAndClearCpuIdle(c: int) returns (was: bool)
      requires Valid() && 0 <= c < nrCpus
      modifies this`idleCpu, this`idleSmt
      ensures Valid() && was == (c in old(idleCpu)) && idleCpu == old(idleCpu) - {c}
      ensures idleSmt == SmtWithout(old(idleSmt), c)
      // with SMT the whole core leaves the SMT mask, and nothing else does
      ensures !smtActive ==> idleSmt == old(idleSmt)
      ensures smtActive ==> idleSmt == old(idleSmt) - (if siblings[c] !! old(idleSmt) then {c} else siblings[c])
      ensures smtActive ==> idleSmt !! siblings[c]
    {
      Meeting(siblings[c], idleSmt);
      if smtActive {
        var smt := siblings[c];
        if smt * idleSmt != {} {
          idleSmt := idleSmt - smt;
        } else if c in idleSmt {
          idleSmt := idleSmt - {c};
        }
      }
      was := c in idleCpu;
      idleCpu := idleCpu - {c};
    }

    /** `cpumask_any_and_distribute`: any common CPU, or a number past the last CPU. */
    method AnyAnd(a: set<int>, b: set<int>) returns (c: int)
      requires InRange(a)
      ensures if a !! b then c == nrCpus else c in a && c in b
    {
      if a !! b {
        c := nrCpus;
      } else {
        Common(a, b);
        c :| c in a && c in b;
      }
    }

    /** The core of the claimed CPU is off the SMT mask; without SMT that mask is left alone. */
    ghost predicate CoreTaken(smtBefore: set<int>, cpu: int)
      reads this
    {
      && 0 <= cpu < |siblings| && idleSmt <= smtBefore
      && if smtActive then idleSmt !! siblings[cpu] else idleSmt == smtBefore
    }

    method PickIdleCpu(allowed: set<int>, idleCore: bool) returns (cpu: int)
      requires Valid()
      modifies this`idleCpu, this`idleSmt
      ensures Valid() && idleSmt <= old(idleSmt)
      ensures cpu >= 0 ==> cpu in allowed && cpu in old(idleCpu) && idleCpu == old(idleCpu) - {cpu}
      ensures cpu >= 0 ==> CoreTaken(old(idleSmt), cpu)
      ensures !smtActive ==> idleSmt == old(idleSmt)
      // with an SMT mask that tells the truth about the CPUs allowed, only the core of the answer is taken off it
      ensures smtActive && allowed * old(idleSmt) <= old(idleCpu) ==>
                idleSmt == old(idleSmt) - (if cpu < 0 then {} else if siblings[cpu] !! old(idleSmt) then {cpu}
                                           else siblings[cpu])
      ensures cpu < 0 ==> idleCpu == old(idleCpu)
      ensures !(idleCore && smtActive) ==> (cpu < 0 <==> allowed !! old(idleCpu))
      ensures idleCore && smtActive && cpu < 0 ==> allowed !! idleSmt
      ensures idleCore && smtActive && cpu >= 0 ==> cpu in old(idleSmt)
      ensures idleCore && smtActive && allowed * old(idleSmt) <= old(idleCpu) ==> (cpu < 0 <==> allowed !! old(idleSmt))
      ensures allowed == {} ==> idleSmt == old(idleSmt)
    {
      while true
        invariant Valid() && idleCpu == old(idleCpu) && idleSmt <= old(idleSmt)
        invariant !smtActive ==> idleSmt == old(idleSmt)
        invariant allowed * old(idleSmt) <= old(idleCpu) || allowed == {} ==> idleSmt == old(idleSmt)
        decreases idleSmt
      {
        var found := false;
        cpu := 0;
        if smtActive {
          cpu := AnyAnd(idleSmt, allowed);
          found := cpu < nrCpus;
          if !found && idleCore {
            return EBUSY;
          }
        }
        if !found {
          cpu := AnyAnd(idleCpu, allowed);
          if cpu >= nrCpus {
            return EBUSY;
          }
        }
        var was := TestAndClearCpuIdle(cpu);
        if was {
          return;
        }
        assert found && cpu in allowed * old(idleSmt);
      }
    }

    method PickAnyCpu(allowed: set<int>) returns (cpu: int)
      requires Valid() && InRange(allowed)
      modifies this`idleCpu, this`idleSmt
      ensures Valid() && idleSmt <= old(idleSmt)
      ensures !(allowed !! old(idleCpu)) ==> cpu in allowed && cpu in old(idleCpu) && idleCpu == old(idleCpu) - {cpu}
      ensures !(allowed !! old(idleCpu)) ==> CoreTaken(old(idleSmt), cpu)
      ensures allowed !! old(idleCpu) ==> idleCpu == old(idleCpu)
      ensures !smtActive ==> idleSmt == old(idleSmt)
      ensures if allowed == {} then cpu == EBUSY else cpu in allowed
    {
      cpu := PickIdleCpu(allowed, false);
      if cpu >= 0 {
        return;
      }
      cpu := AnyAnd(allowed, allowed);
      if cpu >= nrCpus {
        cpu := EBUSY;
      }
    }

    // -------------------------------------------------------------- choosing a CPU

    /** The waker's CPU is good enough: its domain has an idle CPU, it is allowed and about to be free. */
    ghost predicate StaysWithWaker(p: Task, rp: RustyProcess, waker: Waker, idle: set<int>)
      requires 0 <= waker.cpu < |domOf| && 0 <= domOf[waker.cpu] < |doms|
      reads this, rp
    {
      && doms[domOf[waker.cpu]] * idle != {} && waker.cpu in p.allowed
      && !waker.exiting && rp.domId < MAX_DOMS && waker.queued == 0
    }

    /** What a sync wakeup decides on the masks it finds; ENOENT if it leaves the choice to the search. */
    ghost function SyncChoice(p: Task, rp: RustyProcess, prev: int, waker: Waker): int
      requires 0 <= waker.cpu < |domOf| && 0 <= domOf[waker.cpu] < |doms|
      reads this, rp
    {
      var near := doms[domOf[waker.cpu]];
      var smt := if prev in near then SmtWithout(idleSmt, prev) else idleSmt;
      if prev in near && prev in idleCpu then prev
      else if StaysWithWaker(p, rp, waker, if smtActive then smt else idleCpu) then waker.cpu
      else ENOENT
    }

    /** A wakeup that keeps the task next to its waker. */
    method TrySyncWakeup(p: Task, rp: RustyProcess, prev: int, waker: Waker) returns (cpu: int)
      requires Valid() && 0 <= prev < nrCpus && 0 <= waker.cpu < nrCpus && 0 <= domOf[waker.cpu] < |doms|
      modifies this`idleCpu, this`idleSmt
      ensures Valid() && idleSmt <= old(idleSmt)
      ensures cpu == old(SyncChoice(p, rp, prev, waker))
      // the last CPU if that is near and idle; else the waker's, if that will do; else no answer
      ensures var near := doms[domOf[waker.cpu]];
              && (prev in near && prev in old(idleCpu) ==> cpu == prev && CoreTaken(old(idleSmt), prev))
              && (prev !in near || prev !in old(idleCpu) ==>
                    cpu == if near * (if smtActive then idleSmt else idleCpu) != {} && waker.cpu in p.allowed &&
                              !waker.exiting && rp.domId < MAX_DOMS && waker.queued == 0
                           then waker.cpu else ENOENT)
      ensures var near := doms[domOf[waker.cpu]];
              && idleCpu == (if prev in near then old(idleCpu) - {prev} else old(idleCpu))
              && idleSmt == (if prev in near then SmtWithout(old(idleSmt), prev) else old(idleSmt))
      ensures idleCpu == old(idleCpu) || (cpu == prev && prev in old(idleCpu) && idleCpu == old(idleCpu) - {prev})
    {
      cpu := waker.cpu;
      var near := doms[domOf[cpu]];
      if prev in near {
        var was := TestAndClearCpuIdle(prev);
        if was {
          return prev;
        }
      }
      var idle := if smtActive then idleSmt else idleCpu;
      var hasIdle := near * idle != {};
      if hasIdle && cpu in p.allowed && !waker.exiting && rp.domId < MAX_DOMS && waker.queued == 0 {
        return;
      }
      cpu := ENOENT;
    }

    /** The tuner adds topology levels to the greedy mask; it touches nothing else that matters here. */
    method TunerStep(levels: seq<set<int>>)
      requires Valid() && forall l <- levels :: InRange(l)
      modifies this`directGreedy
      ensures Valid() && old(directGreedy) <= directGreedy
    {
      for i := 0 to |levels|
        invariant Valid() && old(directGreedy) <= directGreedy
      {
        assert levels[i] in levels;
        directGreedy := directGreedy + levels[i];
      }
    }

    /**
     The order of preference in the domain mask: home if its whole core is idle; else an idle
     core, when the SMT mask tells the truth about the domain; else home if it is idle at all.
     */
    ghost predicate Preferred(idle: set<int>, smt: set<int>, mask: set<int>, prev: int, cpu: int) {
      && (prev in mask && prev in idle && (!smtActive || prev in smt) ==> cpu == prev)
      && (smtActive && mask * smt <= idle && !(mask !! smt) ==> cpu in smt)
      && (smtActive && prev in mask && prev in idle && mask !! smt ==> cpu == prev)
    }

    /** The search for an idle CPU in the task's domain mask; negative if there is none. */
    method Domestic(rp: RustyProcess, prev: int, hasIdleCores: bool) returns (cpu: int)
      requires Valid() && 0 <= prev < nrCpus && InRange(rp.cpumask)
      modifies this`idleCpu, this`idleSmt
      ensures Valid() && idleSmt <= old(idleSmt)
      ensures cpu < 0 <==> rp.cpumask !! old(idleCpu)
      ensures cpu < 0 ==> idleCpu == old(idleCpu)
      ensures cpu >= 0 ==> cpu in rp.cpumask && cpu in old(idleCpu) && idleCpu == old(idleCpu) - {cpu}
      ensures cpu >= 0 ==> CoreTaken(old(idleSmt), cpu)
      ensures !smtActive ==> idleSmt == old(idleSmt)
      ensures hasIdleCores == ((if smtActive then old(idleSmt) else old(idleCpu)) != {}) ==>
                Preferred(old(idleCpu), old(idleSmt), rp.cpumask, prev, cpu)
    {
      var prevDomestic := prev in rp.cpumask;
      if prevDomestic && prev in (if smtActive then idleSmt else idleCpu) {
        var was := TestAndClearCpuIdle(prev);
        if was {
          return prev;
        }
      }
      if hasIdleCores {
        cpu := PickIdleCpu(rp.cpumask, true);
        if cpu >= 0 {
          return;
        }
      }
      if prevDomestic {
        var was := TestAndClearCpuIdle(prev);
        if was {
          return prev;
        }
      }
      cpu := PickIdleCpu(rp.cpumask, false);
    }

    /** The search outside the domain mask; negative if it finds nothing. */
    method Foreign(rp: RustyProcess, hasIdleCores: bool) returns (cpu: int)
      requires Valid()
      modifies this`idleCpu, this`idleSmt, rp`tmpCpumask
      ensures Valid() && idleSmt <= old(idleSmt)
      ensures cpu < 0 ==> idleCpu == old(idleCpu)
      ensures cpu >= 0 ==> cpu in old(idleCpu) && idleCpu == old(idleCpu) - {cpu} && CoreTaken(old(idleSmt), cpu)
      ensures !smtActive ==> idleSmt == old(idleSmt)
      ensures cpu >= 0 ==> rp.allCpus && directGreedyNuma && cpu in directGreedy
      ensures rp.allCpus && directGreedyNuma ==> (cpu < 0 <==> directGreedy !! old(idleCpu))
    {
      cpu := EBUSY;
      if rp.allCpus && directGreedy != {} {
        var greedy := directGreedy;
        if !directGreedyNuma {
          // the node mask is freshly allocated and zeroed
          var nodeMask: set<int> := {};
          rp.tmpCpumask := nodeMask * greedy;
          greedy := rp.tmpCpumask;
        }
        if hasIdleCores {
          cpu := PickIdleCpu(greedy, true);
          if cpu >= 0 {
            return;
          }
        }
        cpu := PickIdleCpu(greedy, false);
      }
    }

    /** Domestic, then foreign, then home or anywhere in the domain mask; `found` tells a claimed CPU. */
    method Search(rp: RustyProcess, prev: int) returns (cpu: int, found: bool)
      requires Valid() && 0 <= prev < nrCpus && InRange(rp.cpumask)
      modifies this`idleCpu, this`idleSmt, rp`tmpCpumask
      ensures Valid() && idleSmt <= old(idleSmt)
      ensures found ==> cpu in old(idleCpu) && idleCpu == old(idleCpu) - {cpu} && CoreTaken(old(idleSmt), cpu)
      ensures !smtActive ==> idleSmt == old(idleSmt)
      ensures !(rp.cpumask !! old(idleCpu)) ==> found && cpu in rp.cpumask
      ensures Preferred(old(idleCpu), old(idleSmt), rp.cpumask, prev, cpu)
      ensures found && rp.cpumask !! old(idleCpu) ==> rp.allCpus && directGreedyNuma && cpu in directGreedy
      ensures !found ==>
                && rp.cpumask !! old(idleCpu) && idleCpu == old(idleCpu)
                && if prev in rp.cpumask then cpu == prev
                   else if rp.cpumask == {} then cpu == EBUSY else cpu in rp.cpumask
    {
      found := true;
      var hasIdleCores := (if smtActive then idleSmt else idleCpu) != {};
      cpu := Domestic(rp, prev, hasIdleCores);
      if cpu >= 0 {
        return;
      }
      cpu := Foreign(rp, hasIdleCores);
      if cpu >= 0 {
        return;
      }
      found := false;
      if prev in rp.cpumask {
        cpu := prev;
      } else {
        cpu := PickAnyCpu(rp.cpumask);
      }
    }

    method SelectCpu(rp: RustyProcess, p: Task, prev: int, sync: bool, waker: Waker, tuned: seq<set<int>>)
      returns (cpu: int)
      requires Valid() && (forall l <- tuned :: InRange(l)) && InRange(rp.cpumask)
      requires 0 <= prev < nrCpus
      requires sync ==> 0 <= waker.cpu < nrCpus && 0 <= domOf[waker.cpu] < |doms|
      modifies this`idleCpu, this`idleSmt, this`directGreedy, rp`tmpCpumask, rp`dispatchLocal
      ensures Valid() && idleSmt <= old(idleSmt)
      // at most one idle bit is cleared, that of the CPU returned
      ensures idleCpu == old(idleCpu) || (cpu in old(idleCpu) && idleCpu == old(idleCpu) - {cpu})
      // and with it its core's bits in the SMT mask, which without SMT is left alone
      ensures idleCpu != old(idleCpu) ==> CoreTaken(old(idleSmt), cpu)
      ensures !smtActive ==> idleSmt == old(idleSmt)
      // the flag is never reset here
      ensures old(rp.dispatchLocal) ==> rp.dispatchLocal
      // a pinned task stays where it is
      ensures |p.allowed| == 1 ==> cpu == prev && rp.dispatchLocal && idleCpu == old(idleCpu) && idleSmt == old(idleSmt)
      // a sync wakeup that decides has its way
      ensures sync && |p.allowed| != 1 && old(SyncChoice(p, rp, prev, waker)) >= 0 ==>
                cpu == old(SyncChoice(p, rp, prev, waker)) && rp.dispatchLocal
      // else work conservation: an idle CPU of the task's domain mask is used, if there is one
      ensures |p.allowed| != 1 && (!sync || old(SyncChoice(p, rp, prev, waker)) < 0) &&
              !(rp.cpumask !! old(idleCpu)) ==>
                Conserved(old(idleCpu), rp.cpumask, cpu, rp.dispatchLocal)
      // in the order of preference, when the wakeup is not a sync one
      ensures !sync && |p.allowed| != 1 ==> Preferred(old(idleCpu), old(idleSmt), rp.cpumask, prev, cpu)
      // without an idle CPU there, nor a greedy one, the task goes home, or anywhere in its domain mask
      ensures |p.allowed| != 1 && (!sync || old(SyncChoice(p, rp, prev, waker)) < 0) && rp.cpumask !! old(idleCpu)
                && !(rp.allCpus && directGreedyNuma) ==>
                && rp.dispatchLocal == old(rp.dispatchLocal) && idleCpu == old(idleCpu)
                && if prev in rp.cpumask then cpu == prev
                   else if rp.cpumask == {} then cpu == EBUSY else cpu in rp.cpumask
      // the answer is a CPU the task may run on
      ensures prev in p.allowed && rp.cpumask <= p.allowed && rp.cpumask != {} ==>
                0 <= cpu < nrCpus && (cpu in p.allowed || (rp.allCpus && directGreedyNuma && cpu in directGreedy))
    {
      TunerStep(tuned);
      label direct: {
        if |p.allowed| == 1 {
          cpu := prev;
          break direct;
        }
        if sync {
          cpu := TrySyncWakeup(p, rp, prev, waker);
          if cpu >= 0 {
            break direct;
          }
        }
        var found;
        cpu, found := Search(rp, prev);
        if found {
          break direct;
        }
        return;
      }
      rp.dispatchLocal := true;
    }

    // -------------------------------------------------------------- choosing a domain

    method TaskPickDomain(rp: RustyProcess, p: Task, me: int)
      requires Valid() && 0 <= me < nrCpus
      modifies rp`domMask, rp`cpumask, rp`domId, this`domCursor
      ensures Valid()
      ensures domCursor == old(domCursor)[me := (old(domCursor)[me] + 1) % TWO32]
      ensures rp.domMask == MetDomains(doms, p.allowed)
      ensures rp.domMask == {} ==> rp.cpumask == old(rp.cpumask) && rp.domId == old(rp.domId)
      ensures rp.domMask != {} ==> FirstMet(doms, p.allowed, old(domCursor)[me], rp.domId)
      ensures rp.domMask != {} ==> LastMet(doms, p.allowed, old(domCursor)[me], rp.cpumask)
      ensures rp.domMask != {} ==> rp.cpumask != {} && rp.cpumask <= p.allowed && InRange(rp.cpumask)
    {
      var start := domCursor[me];
      domCursor := domCursor[me := (start + 1) % TWO32];
      ScanDomains(rp, p.allowed, start);
      if rp.domMask != {} {
        var d := LastMetInside(doms, p.allowed, start, rp.cpumask);
        assert doms[d] in doms;
      }
    }

    /** The loop of task_pick_domain. */
    method ScanDomains(rp: RustyProcess, allowed: set<int>, start: int)
      requires |doms| <= MAX_DOMS && 0 <= start < TWO32
      modifies rp`domMask, rp`cpumask, rp`domId
      ensures rp.domMask == MetDomains(doms, allowed)
      ensures rp.domMask == {} ==> rp.cpumask == old(rp.cpumask) && rp.domId == old(rp.domId)
      ensures rp.domMask != {} ==> FirstMet(doms, allowed, start, rp.domId) && LastMet(doms, allowed, start, rp.cpumask)
    {
      rp.domMask := {};
      var dom := start;
      var firstDom := -1;
      ghost var sc := Scan(-1, -1);
      for i := 0 to |doms|
        invariant dom == if i == 0 then start else Visit(start, |doms|, i - 1)
        invariant Scanned(doms, allowed, start, i, sc) && (firstDom < 0 <==> sc.first < 0)
        invariant |doms| > 0 ==> rp.domMask == MetBefore(doms, allowed, start, i)
        invariant |doms| == 0 ==> rp.domMask == {}
        invariant rp.domId == if sc.first < 0 then old(rp.domId) else Visit(start, |doms|, sc.first)
        invariant rp.cpumask == if sc.first < 0 then old(rp.cpumask) else doms[Visit(start, |doms|, sc.last)] * allowed
      {
        NextVisit(start, |doms|, i, dom);
        dom := ((dom + 1) % TWO32) % |doms|;
        MetStep(doms, allowed, start, i);
        ScannedNext(doms, allowed, start, i, sc);
        if doms[dom] * allowed != {} {
          rp.domMask := rp.domMask + {dom};
          rp.cpumask := doms[dom] * allowed;
          if firstDom < 0 {
            firstDom := dom;
            rp.domId := dom;
          }
          sc := sc.Met(i);
        }
      }
      if |doms| > 0 {
        ScanMask(doms, allowed, start);
      }
      ScanNone(doms, allowed, start, sc);
    }

    // -------------------------------------------------------------- creation and wakeup

    /** sched_new_prepare; `granted` tells whether the memory for `rp` is there. */
    method NewPrepare(granted: bool, p: Task, me: int, sync: bool, waker: Waker, tuned: seq<set<int>>)
      returns (rp: RustyProcess?, cpu: int)
      requires Valid() && (forall l <- tuned :: InRange(l))
      requires 0 <= me < nrCpus && 0 <= p.cpu < nrCpus
      requires sync ==> 0 <= waker.cpu < nrCpus && 0 <= domOf[waker.cpu] < |doms|
      modifies this`idleCpu, this`idleSmt, this`directGreedy, this`domCursor
      ensures Valid() && (granted <==> rp != null)
      ensures !granted ==>
                cpu == -1 && idleCpu == old(idleCpu) && idleSmt == old(idleSmt) && domCursor == old(domCursor)
      ensures granted ==> fresh(rp) && rp.cpumask <= p.allowed && rp.domMask == MetDomains(doms, p.allowed)
      ensures granted ==> (rp.domMask != {} <==> rp.cpumask != {})
      ensures granted && rp.domMask != {} ==>
                && FirstMet(doms, p.allowed, old(domCursor)[me], rp.domId)
                && LastMet(doms, p.allowed, old(domCursor)[me], rp.cpumask)
      ensures granted ==> (rp.allCpus <==> allCpumask <= p.allowed)
      ensures granted && |p.allowed| == 1 ==> cpu == p.cpu && rp.dispatchLocal
      ensures granted && !sync && |p.allowed| != 1 && !(rp.cpumask !! old(idleCpu)) ==>
                Conserved(old(idleCpu), rp.cpumask, cpu, rp.dispatchLocal)
      ensures idleCpu == old(idleCpu) || (cpu in old(idleCpu) && idleCpu == old(idleCpu) - {cpu})
      ensures granted && p.cpu in p.allowed && rp.domMask != {} && !directGreedyNuma ==>
                cpu in p.allowed && 0 <= cpu < nrCpus
      // with the table of InitDomains every task meets a domain
      ensures granted && Covers(doms, domOf) && p.cpu in p.allowed ==> rp.domMask != {}
    {
      if granted {
        rp, cpu := Prepare(p, me, sync, waker, tuned);
      } else {
        rp, cpu := null, -1;
      }
    }

    /** The rest of sched_new_prepare, with the memory for `rp`. */
    method Prepare(p: Task, me: int, sync: bool, waker: Waker, tuned: seq<set<int>>)
      returns (rp: RustyProcess, cpu: int)
      requires Valid() && (forall l <- tuned :: InRange(l))
      requires 0 <= me < nrCpus && 0 <= p.cpu < nrCpus
      requires sync ==> 0 <= waker.cpu < nrCpus && 0 <= domOf[waker.cpu] < |doms|
      modifies this`idleCpu, this`idleSmt, this`directGreedy, this`domCursor
      ensures Valid() && fresh(rp) && rp.cpumask <= p.allowed
      ensures rp.domMask == MetDomains(doms, p.allowed)
      ensures rp.domMask != {} <==> rp.cpumask != {}
      ensures rp.domMask != {} ==> FirstMet(doms, p.allowed, old(domCursor)[me], rp.domId)
      ensures rp.domMask != {} ==> LastMet(doms, p.allowed, old(domCursor)[me], rp.cpumask)
      ensures rp.allCpus <==> allCpumask <= p.allowed
      ensures |p.allowed| == 1 ==> cpu == p.cpu && rp.dispatchLocal
      ensures !sync && |p.allowed| != 1 && !(rp.cpumask !! old(idleCpu)) ==>
                Conserved(old(idleCpu), rp.cpumask, cpu, rp.dispatchLocal)
      ensures idleCpu == old(idleCpu) || (cpu in old(idleCpu) && idleCpu == old(idleCpu) - {cpu})
      ensures p.cpu in p.allowed && rp.domMask != {} && !directGreedyNuma ==> cpu in p.allowed && 0 <= cpu < nrCpus
      ensures Covers(doms, domOf) && p.cpu in p.allowed ==> rp.domMask != {}
    {
      if Covers(doms, domOf) && p.cpu in p.allowed {
        AffinityMet(doms, domOf, p.allowed, p.cpu);
      }
      rp := new RustyProcess();
      TaskPickDomain(rp, p, me);
      rp.allCpus := allCpumask <= p.allowed;
      cpu := SelectCpu(rp, p, p.cpu, sync, waker, tuned);
    }

    /** sched_unblock_prepare, for a task whose domain mask was built when it was created. */
    method UnblockPrepare(rp: RustyProcess, p: Task, waker: Waker, tuned: seq<set<int>>) returns (cpu: int)
      requires Valid() && (forall l <- tuned :: InRange(l)) && InRange(rp.cpumask)
      requires 0 <= p.cpu < nrCpus
      modifies this`idleCpu, this`idleSmt, this`directGreedy, rp`tmpCpumask, rp`dispatchLocal
      ensures Valid()
      ensures idleCpu == old(idleCpu) || (cpu in old(idleCpu) && idleCpu == old(idleCpu) - {cpu})
      ensures |p.allowed| == 1 ==> cpu == p.cpu && rp.dispatchLocal
      ensures |p.allowed| != 1 && !(rp.cpumask !! old(idleCpu)) ==>
              Conserved(old(idleCpu), rp.cpumask, cpu, rp.dispatchLocal)
      ensures |p.allowed| != 1 ==> Preferred(old(idleCpu), old(idleSmt), rp.cpumask, p.cpu, cpu)
      ensures p.cpu in p.allowed && rp.cpumask <= p.allowed && rp.cpumask != {} && !directGreedyNuma ==>
                cpu in p.allowed && 0 <= cpu < nrCpus
    {
      cpu := SelectCpu(rp, p, p.cpu, false, waker, tuned);
    }
  }

  lemma Inhabited(s: set<int>)
    requires s != {}
    ensures exists x :: x in s
  {
    if forall x :: x !in s {
      assert false;
    }
  }

  lemma Meeting(a: set<int>, b: set<int>)
    ensures a * b != {} <==> !(a !! b)
  {
    if !(a !! b) {
      Common(a, b);
      var x :| x in a && x in b;
      assert x in a * b;
    }
    if a * b != {} {
      Inhabited(a * b);
      var x :| x in a * b;
      assert x in a && x in b;
    }
  }

  lemma Common(a: set<int>, b: set<int>)
    requires !(a !! b)
    ensures exists x :: x in a && x in b
  {
    if forall x :: !(x in a && x in b) {
      assert false;
    }
  }

  // ---------------------------------------------------------------- building the table of domains

  /** Every CPU belongs to the domain its `dom_id` names. */
  ghost predicate Covers(doms: seq<set<int>>, domOf: seq<int>) {
    forall c :: 0 <= c < |domOf| ==> Named(doms, domOf, c)
  }

  ghost predicate Named(doms: seq<set<int>>, domOf: seq<int>, c: int) {
    0 <= c < |domOf| && 0 <= domOf[c] < |doms| && c in doms[domOf[c]]
  }

  predicate Distinct(doms: seq<set<int>>) {
    forall i, j :: 0 <= i < j < |doms| ==> doms[i] != doms[j]
  }

  /** The CPU sets of all levels. */
  function Masks(levels: seq<Option<Level>>): set<set<int>> {
    set i | 0 <= i < |levels| && levels[i].Some? :: levels[i].value.cores
  }

  lemma {:induction false} DistinctFits(doms: seq<set<int>>, masks: set<set<int>>)
    requires Distinct(doms) && forall d <- doms :: d in masks
    ensures |doms| <= |masks|
  {
    if doms != [] {
      var last := doms[|doms| - 1];
      var rest := doms[..|doms| - 1];
      forall d | d in rest ensures d in masks - {last} {
        var i :| 0 <= i < |rest| && rest[i] == d;
        assert doms[i] == d;
      }
      assert last in doms;
      DistinctFits(rest, masks - {last});
    }
  }

  /** The CPU lies in its own level, if it has one. */
  predicate InOwnLevel(levels: seq<Option<Level>>, c: int) {
    0 <= c < |levels| && levels[c].Some? ==> c in levels[c].value.cores
  }

  /** The CPU has a level, which is not a NUMA level. */
  predicate OnLocalLevel(levels: seq<Option<Level>>, x: int) {
    0 <= x < |levels| && levels[x].Some? && !levels[x].value.numa
  }

  /** The mask is the CPU set of a level that is not a NUMA level. */
  ghost predicate IsLocal(levels: seq<Option<Level>>, d: set<int>) {
    exists c :: OnLocalLevel(levels, c) && d == levels[c].value.cores
  }

  /** The levels that are not NUMA levels split the machine: any two are the same or have no CPU in common. */
  ghost predicate Tidy(levels: seq<Option<Level>>) {
    && AllOwn(levels)
    && forall c, d :: OnLocalLevel(levels, c) && OnLocalLevel(levels, d) ==>
         levels[c].value.cores == levels[d].value.cores || levels[c].value.cores !! levels[d].value.cores
  }

  /** Domain `d` has a CPU that comes before all those of domain `e` whose level is not a NUMA level. */
  ghost predicate ComesFirst(levels: seq<Option<Level>>, d: set<int>, e: set<int>) {
    exists c <- d :: OnLocalLevel(levels, c) && forall x <- e :: OnLocalLevel(levels, x) ==> c < x
  }

  /** The domain of CPU `x` is its own level. */
  ghost predicate AtHome(levels: seq<Option<Level>>, doms: seq<set<int>>, domOf: seq<int>, x: int) {
    OnLocalLevel(levels, x) ==>
      Named(doms, domOf, x) && doms[domOf[x]] == levels[x].value.cores
  }

  /** `f` is the first of the domain's CPUs that are not on a NUMA level. */
  ghost predicate IsFirst(levels: seq<Option<Level>>, d: set<int>, f: int) {
    OnLocalLevel(levels, f) && f in d && forall x <- d :: OnLocalLevel(levels, x) ==> f <= x
  }

  /** A CPU that two levels claim, one of them its own, has that level. */
  lemma OneLevel(levels: seq<Option<Level>>, c: int, x: int)
    requires Tidy(levels) && OnLocalLevel(levels, c) && x in levels[c].value.cores
    ensures OnLocalLevel(levels, x) ==> levels[x].value.cores == levels[c].value.cores
  {
    assert 0 <= x < |levels| ==> InOwnLevel(levels, x);
  }

  /** The CPUs the domains were built for, in their order. */
  ghost predicate Firsts(levels: seq<Option<Level>>, doms: seq<set<int>>, firsts: seq<int>, cpu: int) {
    && |firsts| == |doms|
    && (forall i :: 0 <= i < |doms| ==> firsts[i] < cpu && IsFirst(levels, doms[i], firsts[i]))
    && (forall i, j :: 0 <= i < j < |firsts| ==> firsts[i] < firsts[j])
  }

  /** What the loop has built from the CPUs before `cpu`, when the levels split the machine. */
  ghost predicate Built(levels: seq<Option<Level>>, doms: seq<set<int>>, domOf: seq<int>, done: set<int>,
                        firsts: seq<int>, cpu: int) {
    && (forall d <- doms :: d <= done) && Firsts(levels, doms, firsts, cpu)
    && (forall x <- done :: AtHome(levels, doms, domOf, x))
    && (forall c :: 0 <= c < cpu && OnLocalLevel(levels, c) ==> c in done)
  }

  lemma FirstsNext(levels: seq<Option<Level>>, doms: seq<set<int>>, firsts: seq<int>, cpu: int, cores: set<int>)
    requires Firsts(levels, doms, firsts, cpu) && IsFirst(levels, cores, cpu)
    ensures Firsts(levels, doms + [cores], firsts + [cpu], cpu + 1)
  {
  }

  /** A CPU found outside the domains so far comes first in its own level. */
  lemma NewIsFirst(levels: seq<Option<Level>>, doms: seq<set<int>>, domOf: seq<int>, done: set<int>,
                   firsts: seq<int>, cpu: int)
    requires Tidy(levels) && Built(levels, doms, domOf, done, firsts, cpu) && OnLocalLevel(levels, cpu) && cpu !in done
    ensures IsFirst(levels, levels[cpu].value.cores, cpu)
  {
    assert InOwnLevel(levels, cpu);
    forall x | x in done && OnLocalLevel(levels, x) ensures levels[x].value.cores <= done {
      assert AtHome(levels, doms, domOf, x) && doms[domOf[x]] in doms;
    }
    forall x | x in levels[cpu].value.cores && OnLocalLevel(levels, x) ensures cpu <= x {
      OneLevel(levels, cpu, x);
    }
  }

  /** `r` is `domOf` with the new domain entered for the CPUs of `cores`. */
  ghost predicate Entered(domOf: seq<int>, cores: set<int>, id: int, r: seq<int>) {
    && |r| == |domOf| && (forall x <- cores :: 0 <= x < |domOf|)
    && forall x :: 0 <= x < |domOf| ==> r[x] == if x in cores then id else domOf[x]
  }

  lemma HomesNext(levels: seq<Option<Level>>, doms: seq<set<int>>, domOf: seq<int>, done: set<int>, cpu: int,
                  r: seq<int>)
    requires Tidy(levels) && OnLocalLevel(levels, cpu) && (forall x <- done :: AtHome(levels, doms, domOf, x))
    requires Entered(domOf, levels[cpu].value.cores, |doms|, r)
    ensures var cores := levels[cpu].value.cores;
            forall x <- done + cores :: AtHome(levels, doms + [cores], r, x)
  {
    var cores := levels[cpu].value.cores;
    forall x | x in done + cores ensures AtHome(levels, doms + [cores], r, x) {
      if x in cores {
        OneLevel(levels, cpu, x);
        assert 0 <= x < |levels| ==> InOwnLevel(levels, x);
      } else {
        assert AtHome(levels, doms, domOf, x);
      }
    }
  }

  lemma BuiltNext(levels: seq<Option<Level>>, doms: seq<set<int>>, domOf: seq<int>, done: set<int>,
                  firsts: seq<int>, cpu: int, r: seq<int>)
    requires Tidy(levels) && Built(levels, doms, domOf, done, firsts, cpu) && OnLocalLevel(levels, cpu) && cpu !in done
    requires Entered(domOf, levels[cpu].value.cores, |doms|, r)
    ensures var cores := levels[cpu].value.cores;
            Built(levels, doms + [cores], r, done + cores, firsts + [cpu], cpu + 1)
  {
    assert InOwnLevel(levels, cpu);
    NewIsFirst(levels, doms, domOf, done, firsts, cpu);
    FirstsNext(levels, doms, firsts, cpu, levels[cpu].value.cores);
    HomesNext(levels, doms, domOf, done, cpu, r);
  }

  /** What the loop has built from the CPUs before `cpu`, whatever the levels. */
  ghost predicate Listed(levels: seq<Option<Level>>, doms: seq<set<int>>, domOf: seq<int>, done: set<int>, cpu: int)
    requires cpu <= |levels|
  {
    && (forall d <- doms :: d <= done && d in Masks(levels) && IsLocal(levels, d))
    && (forall x <- done :: Named(doms, domOf, x))
    && (forall c :: 0 <= c < cpu ==> levels[c].Some?)
    && (AllOwn(levels) ==>
          Distinct(doms) && forall c :: 0 <= c < cpu && OnLocalLevel(levels, c) ==> c in done)
  }

  /** Every level contains its own CPU. */
  ghost predicate AllOwn(levels: seq<Option<Level>>) {
    forall c :: 0 <= c < |levels| ==> InOwnLevel(levels, c)
  }

  lemma ListedNext(levels: seq<Option<Level>>, doms: seq<set<int>>, domOf: seq<int>, done: set<int>, cpu: int,
                   r: seq<int>)
    requires 0 <= cpu < |levels| && Listed(levels, doms, domOf, done, cpu) && OnLocalLevel(levels, cpu) && cpu !in done
    requires Entered(domOf, levels[cpu].value.cores, |doms|, r)
    ensures var cores := levels[cpu].value.cores;
            Listed(levels, doms + [cores], r, done + cores, cpu + 1)
  {
    var cores := levels[cpu].value.cores;
    if AllOwn(levels) {
      assert InOwnLevel(levels, cpu);
      forall i | 0 <= i < |doms| ensures doms[i] != cores {
        assert doms[i] in doms && cpu !in doms[i] && cpu in cores;
      }
    }
    assert cores in Masks(levels) && IsLocal(levels, cores);
    forall x | x in done + cores ensures Named(doms + [cores], r, x) {
      assert x !in cores ==> Named(doms, domOf, x);
    }
  }

  lemma BuiltMeans(levels: seq<Option<Level>>, doms: seq<set<int>>, domOf: seq<int>, done: set<int>,
                   firsts: seq<int>, cpu: int)
    requires Built(levels, doms, domOf, done, firsts, cpu)
    ensures forall i, j :: 0 <= i < j < |doms| ==> ComesFirst(levels, doms[i], doms[j])
    ensures forall c :: 0 <= c < cpu ==> AtHome(levels, doms, domOf, c)
  {
    forall c | 0 <= c < cpu ensures AtHome(levels, doms, domOf, c) {
      assert OnLocalLevel(levels, c) ==> c in done;
    }
  }

  /**
   The second loop of init_sched; `levels[c]` is the topology level of CPU `c`, if it has one.
   The table grows as needed here; the C table has MAX_DOMS entries, which is enough when the
   levels contain their own CPUs and no more than MAX_DOMS of them differ.
   */
  method InitDomains(levels: seq<Option<Level>>) returns (err: int, doms: seq<set<int>>, domOf: seq<int>)
    requires forall c :: 0 <= c < |levels| && levels[c].Some? ==> forall x <- levels[c].value.cores :: 0 <= x < |levels|
    ensures |doms| <= |levels| && |domOf| == |levels|
    ensures if forall c :: 0 <= c < |levels| ==> levels[c].Some? then err == 0 else err == ENOENT
    ensures forall d <- doms :: forall x <- d :: Named(doms, domOf, x)
    ensures AllOwn(levels) ==> Distinct(doms) && |doms| <= |Masks(levels)|
    ensures AllOwn(levels) && err == 0 && (forall c :: 0 <= c < |levels| ==> !levels[c].value.numa) ==>
              Covers(doms, domOf)
    // every domain is a level that is not a NUMA level, and if these split the machine, each of their CPUs is at home
    ensures forall d <- doms :: IsLocal(levels, d)
    ensures err == 0 && Tidy(levels) ==>
              forall c :: 0 <= c < |levels| ==> AtHome(levels, doms, domOf, c)
    // in the order of their first CPUs
    ensures Tidy(levels) ==> forall i, j :: 0 <= i < j < |doms| ==> ComesFirst(levels, doms[i], doms[j])
  {
    err, doms, domOf := 0, [], seq(|levels|, _ => 0);
    var done: set<int> := {};
    ghost var firsts: seq<int> := [];
    for cpu := 0 to |levels|
      invariant |domOf| == |levels| && |doms| <= cpu
      invariant Listed(levels, doms, domOf, done, cpu)
      invariant Tidy(levels) ==> Built(levels, doms, domOf, done, firsts, cpu)
    {
      if levels[cpu] == None {
        err := ENOENT;
        TableMeans(levels, doms, domOf, done, firsts, cpu);
        return;
      }
      var level := levels[cpu].value;
      if cpu !in done && !level.numa {
        var named := Assign(domOf, level.cores, |doms|);
        ListedNext(levels, doms, domOf, done, cpu, named);
        if Tidy(levels) {
          BuiltNext(levels, doms, domOf, done, firsts, cpu, named);
        }
        doms, domOf, done, firsts := doms + [level.cores], named, done + level.cores, firsts + [cpu];
      }
    }
    TableMeans(levels, doms, domOf, done, firsts, |levels|);
  }

  lemma TableMeans(levels: seq<Option<Level>>, doms: seq<set<int>>, domOf: seq<int>, done: set<int>,
                   firsts: seq<int>, cpu: int)
    requires 0 <= cpu <= |levels| && Listed(levels, doms, domOf, done, cpu)
    requires Tidy(levels) ==> Built(levels, doms, domOf, done, firsts, cpu)
    ensures forall d <- doms :: forall x <- d :: Named(doms, domOf, x)
    ensures AllOwn(levels) ==> |doms| <= |Masks(levels)|
    ensures AllOwn(levels) ==> forall c :: 0 <= c < cpu && OnLocalLevel(levels, c) ==> Named(doms, domOf, c)
    ensures Tidy(levels) ==> forall i, j :: 0 <= i < j < |doms| ==> ComesFirst(levels, doms[i], doms[j])
    ensures Tidy(levels) ==> forall c :: 0 <= c < cpu ==> AtHome(levels, doms, domOf, c)
  {
    if AllOwn(levels) {
      DistinctFits(doms, Masks(levels));
    }
    if Tidy(levels) {
      BuiltMeans(levels, doms, domOf, done, firsts, cpu);
    }
  }

  /** The inner loop: every CPU of the level gets the new domain. */
  method Assign(domOf: seq<int>, cores: set<int>, id: int) returns (r: seq<int>)
    requires forall x <- cores :: 0 <= x < |domOf|
    ensures Entered(domOf, cores, id, r)
  {
    r := domOf;
    var left := cores;
    while left != {}
      invariant left <= cores && |r| == |domOf|
      invariant forall x :: 0 <= x < |domOf| ==> r[x] == if x in cores && x !in left then id else domOf[x]
      decreases left
    {
      Inhabited(left);
      var x :| x in left;
      r := r[x := id];
      left := left - {x};
    }
  }

  /** Once every CPU is in a domain, any affinity that names a CPU meets a domain. */
  lemma AffinityMet(doms: seq<set<int>>, domOf: seq<int>, allowed: set<int>, c: int)
    requires Covers(doms, domOf) && c in allowed && 0 <= c < |domOf|
    ensures MetDomains(doms, allowed) != {}
  {
    assert Named(doms, domOf, c);
    assert c in doms[domOf[c]] * allowed;
    assert domOf[c] in MetDomains(doms, allowed);
  }

  /** The CPU was idle, lies in the mask, and the task is dispatched to it directly. */
  predicate Conserved(idle: set<int>, mask: set<int>, cpu: int, direct: bool) {
    cpu in idle && cpu in mask && direct
  }

  lemma LastMetInside(doms: seq<set<int>>, allowed: set<int>, start: int, mask: set<int>) returns (d: int)
    requires LastMet(doms, allowed, start, mask)
    ensures mask != {} && mask <= allowed && 0 <= d < |doms| && mask <= doms[d]
  {
    var r :| && 0 <= r < |doms| && Meets(doms, allowed, Visit(start, |doms|, r))
             && mask == doms[Visit(start, |doms|, r)] * allowed;
    d := Visit(start, |doms|, r);
  }

  /** The mask a CPU is chosen from belongs to the domain the task is filed under only if it meets no other. */
  lemma MaskOfFiledDomain(doms: seq<set<int>>, allowed: set<int>, start: int, d: int, mask: set<int>)
    requires FirstMet(doms, allowed, start, d) && LastMet(doms, allowed, start, mask)
    requires forall i, j :: 0 <= i < j < |doms| ==> doms[i] !! doms[j]
    ensures mask == doms[d] * allowed <==> MetDomains(doms, allowed) == {d}
  {
    var n := |doms|;
    var f := (start + 1) % TWO32;
    var r :| && 0 <= r < n && d == Visit(start, n, r)
             && forall k :: 0 <= k < r ==> !Meets(doms, allowed, Visit(start, n, k));
    var l :| && 0 <= l < n && Meets(doms, allowed, Visit(start, n, l)) && mask == doms[Visit(start, n, l)] * allowed
             && forall k :: l < k < n ==> !Meets(doms, allowed, Visit(start, n, k));
    var e := Visit(start, n, l);
    assert e in MetDomains(doms, allowed) && d in MetDomains(doms, allowed);
    if e == d {
      ScanIsPermutation(start, n, d);
      assert r == l;
      forall x | x in MetDomains(doms, allowed) ensures x == d {
        ScanIsPermutation(start, n, x);
      }
    } else {
      Inhabited(mask);
      var x :| x in mask;
      assert x in doms[e];
      assert x !in doms[d] by {
        assert if e < d then doms[e] !! doms[d] else doms[d] !! doms[e];
      }
      assert e !in {d};
    }
  }

  /** Two domains, a task allowed in both: it is filed under domain 1 and left with the mask of domain 0. */
  lemma OtherDomainsMask()
    ensures FirstMet([{0}, {1}], {0, 1}, 0, 1) && LastMet([{0}, {1}], {0, 1}, 0, {0})
    ensures !LastMet([{0}, {1}], {0, 1}, 0, [{0}, {1}][1] * {0, 1})
  {
    var doms: seq<set<int>> := [{0}, {1}];
    assert 0 in doms[0] * {0, 1} && 1 in doms[1] * {0, 1};
    assert doms[0] * {0, 1} == {0} && doms[1] * {0, 1} == {1};
    assert Visit(0, 2, 0) == 1 && Visit(0, 2, 1) == 0;
    assert 1 in doms[1] * {0, 1} && 1 !in {0};
  }

  // ---------------------------------------------------------------- the progress of the scan

  /** The first and the last round, so far, whose domain meets the affinity; negative if none does. */
  datatype Scan = Scan(first: int, last: int) {
    function Met(i: int): Scan {
      Scan(if first < 0 then i else first, i)
    }
  }

  ghost predicate Scanned(doms: seq<set<int>>, allowed: set<int>, start: int, i: int, sc: Scan) {
    && |doms| >= i >= 0
    && (sc.first < 0 ==> forall k :: 0 <= k < i ==> !Meets(doms, allowed, Visit(start, |doms|, k)))
    && (sc.first >= 0 ==>
          && sc.first <= sc.last < i
          && Meets(doms, allowed, Visit(start, |doms|, sc.first)) && Meets(doms, allowed, Visit(start, |doms|, sc.last))
          && (forall k :: 0 <= k < sc.first ==> !Meets(doms, allowed, Visit(start, |doms|, k)))
          && (forall k :: sc.last < k < i ==> !Meets(doms, allowed, Visit(start, |doms|, k))))
  }

  lemma ScannedNext(doms: seq<set<int>>, allowed: set<int>, start: int, i: int, sc: Scan)
    requires Scanned(doms, allowed, start, i, sc) && i < |doms|
    ensures var met := Meets(doms, allowed, Visit(start, |doms|, i));
            Scanned(doms, allowed, start, i + 1, if met then sc.Met(i) else sc)
  {
  }

  /** The loop's two remainders lead from one visited domain to the next. */
  lemma NextVisit(start: int, n: int, i: int, dom: int)
    requires 0 < n <= MAX_DOMS && i >= 0 && dom == if i == 0 then start else Visit(start, n, i - 1)
    ensures ((dom + 1) % TWO32) % n == Visit(start, n, i) && 0 <= Visit(start, n, i) < n
  {
    if i == 0 {
      RoundFirst((start + 1) % TWO32, n);
    } else {
      RoundStep((start + 1) % TWO32, n, i, dom);
    }
  }

  lemma RoundFirst(f: int, n: int)
    requires 0 < n
    ensures f % n == (f + 0) % n && 0 <= f % n < n
  {
  }

  lemma RoundStep(f: int, n: int, i: int, v: int)
    requires 0 < n <= MAX_DOMS && v == (f + i - 1) % n
    ensures ((v + 1) % TWO32) % n == (f + i) % n && 0 <= (f + i) % n < n
  {
    VisitNext(f, n, i);
    VisitNext(f, n, i + 1);
    SmallWord(v + 1);
  }

  lemma ScanNone(doms: seq<set<int>>, allowed: set<int>, start: int, sc: Scan)
    requires Scanned(doms, allowed, start, |doms|, sc)
    ensures sc.first < 0 <==> MetDomains(doms, allowed) == {}
    ensures sc.first >= 0 ==> FirstMet(doms, allowed, start, Visit(start, |doms|, sc.first))
    ensures sc.first >= 0 ==> LastMet(doms, allowed, start, doms[Visit(start, |doms|, sc.last)] * allowed)
  {
    var mask := MetDomains(doms, allowed);
    if sc.first >= 0 {
      assert Visit(start, |doms|, sc.first) in mask;
    } else {
      forall d | d in mask ensures false {
        ScanIsPermutation(start, |doms|, d);
      }
    }
  }

  /** `d` is the first domain in cyclic order that meets the affinity. */
  ghost predicate FirstMet(doms: seq<set<int>>, allowed: set<int>, start: int, d: int) {
    && |doms| > 0 && Meets(doms, allowed, d)
    && exists r :: && 0 <= r < |doms| && d == Visit(start, |doms|, r)
                   && forall k :: 0 <= k < r ==> !Meets(doms, allowed, Visit(start, |doms|, k))
  }

  /** `mask` is the part of the last met domain, in cyclic order, inside the affinity. */
  ghost predicate LastMet(doms: seq<set<int>>, allowed: set<int>, start: int, mask: set<int>) {
    && |doms| > 0
    && exists r :: && 0 <= r < |doms| && Meets(doms, allowed, Visit(start, |doms|, r))
                   && mask == doms[Visit(start, |doms|, r)] * allowed
                   && forall k :: r < k < |doms| ==> !Meets(doms, allowed, Visit(start, |doms|, k))
  }

  /** Of the domains that meet the affinity, `d` comes first in the rounds of the scan. */
  lemma FirstMetIsNearest(doms: seq<set<int>>, allowed: set<int>, start: int, d: int)
    ensures FirstMet(doms, allowed, start, d) <==>
            && 0 <= d < |doms| && doms[d] * allowed != {}
            && forall e :: 0 <= e < |doms| && doms[e] * allowed != {} ==>
                 RoundOf(start, |doms|, d) <= RoundOf(start, |doms|, e)
  {
    var n := |doms|;
    if 0 <= d < n {
      ScanIsPermutation(start, n, d);
      forall e | 0 <= e < n && doms[e] * allowed != {}
        ensures Meets(doms, allowed, e) && Visit(start, n, RoundOf(start, n, e)) == e && 0 <= RoundOf(start, n, e) < n
      {
        ScanIsPermutation(start, n, e);
      }
      forall k | 0 <= k < n
        ensures 0 <= Visit(start, n, k) < n && RoundOf(start, n, Visit(start, n, k)) == k
      {
        VisitedIn(start, n, k);
      }
    }
  }

  lemma VisitedIn(start: int, n: int, k: int)
    requires n > 0 && 0 <= k < n
    ensures 0 <= Visit(start, n, k) < n && RoundOf(start, n, Visit(start, n, k)) == k
  {
    RoundFirst((start + 1) % TWO32 + k, n);
    ScanIsPermutation(start, n, Visit(start, n, k));
  }

  /** The mask is that of the domain that comes last. */
  lemma LastMetIsFarthest(doms: seq<set<int>>, allowed: set<int>, start: int, mask: set<int>)
    ensures LastMet(doms, allowed, start, mask) <==>
            exists d :: && 0 <= d < |doms| && doms[d] * allowed != {} && mask == doms[d] * allowed
                        && forall e :: 0 <= e < |doms| && doms[e] * allowed != {} ==>
                             RoundOf(start, |doms|, e) <= RoundOf(start, |doms|, d)
  {
    var n := |doms|;
    forall e | 0 <= e < n
      ensures Visit(start, n, RoundOf(start, n, e)) == e && 0 <= RoundOf(start, n, e) < n
      ensures Meets(doms, allowed, e) <==> doms[e] * allowed != {}
    {
      ScanIsPermutation(start, n, e);
    }
    forall k | 0 <= k < n ensures 0 <= Visit(start, n, k) < n && RoundOf(start, n, Visit(start, n, k)) == k {
      VisitedIn(start, n, k);
    }
  }

  /** For a task allowed in every domain, the `j`-th call from `start` files it under `Pick(start, n, j)`. */
  lemma PickIsFirst(doms: seq<set<int>>, allowed: set<int>, start: int, j: int, d: int)
    requires |doms| > 0 && forall e :: 0 <= e < |doms| ==> Meets(doms, allowed, e)
    ensures FirstMet(doms, allowed, (start + j) % TWO32, d) <==> d == Pick(start, |doms|, j)
  {
    var s := (start + j) % TWO32;
    assert Meets(doms, allowed, Visit(s, |doms|, 0));
    if d == Pick(start, |doms|, j) {
      assert d == Visit(s, |doms|, 0);
    }
  }

  lemma MetStep(doms: seq<set<int>>, allowed: set<int>, start: int, i: nat)
    requires |doms| > 0
    ensures var v := Visit(start, |doms|, i);
            MetBefore(doms, allowed, start, i + 1) ==
            MetBefore(doms, allowed, start, i) + if Meets(doms, allowed, v) then {v} else {}
  {
    var v := Visit(start, |doms|, i);
    forall d | d in MetBefore(doms, allowed, start, i + 1)
      ensures d in MetBefore(doms, allowed, start, i) || (d == v && Meets(doms, allowed, v))
    {
      var k :| 0 <= k < i + 1 && Meets(doms, allowed, Visit(start, |doms|, k)) && Visit(start, |doms|, k) == d;
    }
  }
}
