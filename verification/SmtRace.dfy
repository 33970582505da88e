/**
 The idle handlers of saakm_central running at the same time on several CPUs.  Each step is one
 operation on one mask: set or clear the CPU, test its group, list the group, unlist it.
 */
module SmtRace {
  import opened SmtSummary

  /** How far a CPU is in its own handler. */
  datatype Pc =
    | Rest
    | Test       // central_entry_idle: the CPU is marked idle, the group is yet to be tested
    | List       // the group was found idle, and is yet to be listed
    | Unlist     // central_exit_idle: the CPU is marked busy, the group is yet to be unlisted
    | Unplug     // central_core_exit: the CPU is marked busy, and is yet to be unlisted itself

  datatype Race = Race(m: SmtSummary.State, pc: map<Cpu, Pc>)

  datatype Event =
    | Entry(c: Cpu)
    | Exit(c: Cpu)
    | Leave(c: Cpu)
    | Advance(c: Cpu)

  function PcOf(s: Race, c: Cpu): Pc {
    if c in s.pc then s.pc[c] else Rest
  }

  function Group(s: Race, c: Cpu): set<Cpu> {
    if c in s.m.siblings then s.m.siblings[c] else {}
  }

  predicate Enabled(s: Race, e: Event) {
    e.c in s.m.siblings && (e.Advance? <==> PcOf(s, e.c) != Rest)
  }

  function Goto(s: Race, c: Cpu, next: Pc): Race {
    s.(pc := s.pc[c := next])
  }

  function Step(s: Race, e: Event): Race
    requires Enabled(s, e)
  {
    var c := e.c;
    match e
    case Entry(_) => Goto(s.(m := s.m.(core := s.m.core[c := IdleCore], cpus := s.m.cpus + {c})), c, Test)
    case Exit(_) => Goto(s.(m := s.m.(core := s.m.core[c := ActiveCore], cpus := s.m.cpus - {c})), c, Unlist)
    case Leave(_) => Goto(s.(m := s.m.(core := s.m.core[c := ActiveCore], cpus := s.m.cpus - {c})), c, Unplug)
    case Advance(_) =>
      match PcOf(s, c)
      case Rest => s
      case Test => Goto(s, c, if Group(s, c) <= s.m.cpus then List else Rest)
      case List => Goto(s.(m := s.m.(smt := s.m.smt + Group(s, c))), c, Rest)
      case Unlist => Goto(s.(m := s.m.(smt := s.m.smt - Group(s, c))), c, Rest)
      case Unplug => Goto(s.(m := s.m.(smt := s.m.smt - {c})), c, Rest)
  }

  ghost predicate Run(s: Race, es: seq<Event>)
    decreases |es|
  {
    es != [] ==> Enabled(s, es[0]) && Run(Step(s, es[0]), es[1..])
  }

  ghost function Exec(s: Race, es: seq<Event>): Race
    requires Run(s, es)
    decreases |es|
  {
    if es == [] then s else Exec(Step(s, es[0]), es[1..])
  }

  function Boot(siblings: map<Cpu, set<Cpu>>): Race {
    Race(SmtSummary.Boot(siblings), map[])
  }

  // ---------------------------------------------------------------- one handler alone

  /** A handler that nobody disturbs does what the one-step handler does. */
  lemma EntryAlone(s: Race, c: Cpu)
    requires c in s.m.siblings && PcOf(s, c) == Rest
    ensures var a := Step(s, Entry(c));
            && Enabled(a, Advance(c))
            && var b := Step(a, Advance(c));
               var n := if PcOf(b, c) == List then Step(b, Advance(c)) else b;
               n.m == SmtSummary.Step(s.m, EntryIdle(c)) && PcOf(n, c) == Rest
  {
  }

  lemma ExitAlone(s: Race, c: Cpu)
    requires c in s.m.siblings && PcOf(s, c) == Rest
    ensures var a := Step(s, Exit(c));
            && Enabled(a, Advance(c))
            && Step(a, Advance(c)).m == SmtSummary.Step(s.m, ExitIdle(c)) && PcOf(Step(a, Advance(c)), c) == Rest
  {
  }

  lemma LeaveAlone(s: Race, c: Cpu)
    requires c in s.m.siblings && PcOf(s, c) == Rest
    ensures var a := Step(s, Leave(c));
            && Enabled(a, Advance(c))
            && Step(a, Advance(c)).m == SmtSummary.Step(s.m, CoreExit(c)) && PcOf(Step(a, Advance(c)), c) == Rest
  {
  }

  // ---------------------------------------------------------------- exact up to what is pending

  /** A CPU of the group has still to do its part. */
  ghost predicate Pending(s: Race, c: Cpu, pc: Pc) {
    exists d <- Group(s, c) :: PcOf(s, d) == pc
  }

  ghost predicate Whole(s: Race, c: Cpu) {
    Group(s, c) <= s.m.cpus
  }

  /** The group of `c` is listed as one, and rightly so but for what is pending. */
  ghost predicate TidyAt(s: Race, c: Cpu) {
    && (c in s.m.smt ==> Group(s, c) <= s.m.smt)
    && (c in s.m.smt && !Whole(s, c) ==> Pending(s, c, Unlist))
    && (Whole(s, c) && c !in s.m.smt ==> Pending(s, c, Test) || Pending(s, c, List))
  }

  ghost predicate Tidy(s: Race) {
    && Partition(s.m.siblings)
    && (forall c <- s.m.smt :: c in s.m.siblings)
    && (forall c <- s.pc :: s.pc[c] != Unplug && (s.pc[c] == Unlist ==> c !in s.m.cpus))
    && (forall c <- s.m.siblings :: TidyAt(s, c))
  }

  /** No handler is at work. */
  ghost predicate AtRest(s: Race) {
    forall c <- s.m.siblings :: PcOf(s, c) == Rest
  }

  /** At rest, being tidy is being exact. */
  lemma TidyAtRest(s: Race)
    requires Tidy(s) && AtRest(s)
    ensures Exact(s.m)
  {
    forall c ensures c in s.m.smt <==> c in WhollyIdle(s.m) {
      if c in s.m.siblings {
        assert TidyAt(s, c);
      }
    }
  }

  /** Listing comes in time: the group is still idle, or a busy sibling is yet to unlist it. */
  ghost predicate Timely(s: Race, e: Event)
    requires Enabled(s, e)
  {
    e.Advance? && PcOf(s, e.c) == List ==> Whole(s, e.c) || Pending(s, e.c, Unlist)
  }

  lemma SameGroup(s: Race, c: Cpu, d: Cpu)
    requires Partition(s.m.siblings) && c in s.m.siblings && d in s.m.siblings
    ensures d in Group(s, c) <==> Group(s, c) == Group(s, d)
    ensures c in Group(s, c)
  {
  }

  lemma PendingKept(s: Race, n: Race, c: Cpu, d: Cpu, pc: Pc)
    requires Pending(s, c, pc) && n.m.siblings == s.m.siblings && PcOf(s, d) != pc
    requires forall x :: x != d ==> PcOf(n, x) == PcOf(s, x)
    ensures Pending(n, c, pc)
  {
    var x :| x in Group(s, c) && PcOf(s, x) == pc;
    assert x in Group(n, c) && PcOf(n, x) == pc;
  }

  lemma EntryTidy(s: Race, c: Cpu, x: Cpu)
    requires Tidy(s) && Enabled(s, Entry(c)) && x in s.m.siblings
    ensures TidyAt(Step(s, Entry(c)), x)
  {
    var n := Step(s, Entry(c));
    assert TidyAt(s, x);
    SameGroup(s, x, c);
    if Pending(s, x, Unlist) {
      PendingKept(s, n, x, c, Unlist);
    }
    if c in Group(s, x) {
      assert PcOf(n, c) == Test;
    } else {
      assert Whole(n, x) ==> Whole(s, x);
      if Pending(s, x, Test) {
        PendingKept(s, n, x, c, Test);
      }
      if Pending(s, x, List) {
        PendingKept(s, n, x, c, List);
      }
    }
  }

  lemma ExitTidy(s: Race, c: Cpu, x: Cpu)
    requires Tidy(s) && Enabled(s, Exit(c)) && x in s.m.siblings
    ensures TidyAt(Step(s, Exit(c)), x)
  {
    var n := Step(s, Exit(c));
    assert TidyAt(s, x);
    if c in Group(s, x) {
      assert PcOf(n, c) == Unlist;
    } else {
      assert Whole(n, x) <==> Whole(s, x);
      if Pending(s, x, Unlist) {
        PendingKept(s, n, x, c, Unlist);
      }
      if Pending(s, x, Test) {
        PendingKept(s, n, x, c, Test);
      }
      if Pending(s, x, List) {
        PendingKept(s, n, x, c, List);
      }
    }
  }

  lemma TestTidy(s: Race, c: Cpu, x: Cpu)
    requires Tidy(s) && Enabled(s, Advance(c)) && PcOf(s, c) == Test && x in s.m.siblings
    ensures TidyAt(Step(s, Advance(c)), x)
  {
    var n := Step(s, Advance(c));
    assert TidyAt(s, x);
    SameGroup(s, x, c);
    if Pending(s, x, Unlist) {
      PendingKept(s, n, x, c, Unlist);
    }
    if Pending(s, x, List) {
      PendingKept(s, n, x, c, List);
    }
    if c in Group(s, x) {
      if Whole(s, x) {
        assert PcOf(n, c) == List;
      }
    } else if Pending(s, x, Test) {
      var d :| d in Group(s, x) && PcOf(s, d) == Test;
      assert d in Group(n, x) && PcOf(n, d) == Test;
    }
  }

  lemma UnlistTidy(s: Race, c: Cpu, x: Cpu)
    requires Tidy(s) && Enabled(s, Advance(c)) && PcOf(s, c) == Unlist && x in s.m.siblings
    ensures TidyAt(Step(s, Advance(c)), x)
  {
    var n := Step(s, Advance(c));
    assert TidyAt(s, x);
    SameGroup(s, x, c);
    if c in Group(s, x) {
      assert c !in s.m.cpus;
    } else {
      OtherGroup(s, x, c);
      UnmovedTidy(s, n, x, c);
    }
  }

  lemma OtherGroup(s: Race, x: Cpu, c: Cpu)
    requires Partition(s.m.siblings) && c in s.m.siblings && x in s.m.siblings && c !in Group(s, x)
    ensures Group(s, x) !! Group(s, c)
  {
  }

  /** A step of a CPU of another group, which leaves this group's CPUs in both masks as they were. */
  lemma UnmovedTidy(s: Race, n: Race, x: Cpu, c: Cpu)
    requires TidyAt(s, x) && n.m.siblings == s.m.siblings && n.m.cpus == s.m.cpus && x in Group(s, x) &&
             c !in Group(s, x)
    requires forall d <- Group(s, x) :: d in n.m.smt <==> d in s.m.smt
    requires forall d :: d != c ==> PcOf(n, d) == PcOf(s, d)
    ensures TidyAt(n, x)
  {
    forall pc | Pending(s, x, pc) ensures Pending(n, x, pc) {
      var d :| d in Group(s, x) && PcOf(s, d) == pc;
      assert d in Group(n, x) && PcOf(n, d) == pc;
    }
  }

  lemma ListTidy(s: Race, c: Cpu, x: Cpu)
    requires Tidy(s) && Enabled(s, Advance(c)) && PcOf(s, c) == List && Timely(s, Advance(c)) && x in s.m.siblings
    ensures TidyAt(Step(s, Advance(c)), x)
  {
    var n := Step(s, Advance(c));
    assert TidyAt(s, x);
    SameGroup(s, x, c);
    if c in Group(s, x) {
      if !Whole(s, c) {
        PendingKept(s, n, x, c, Unlist);
      }
    } else {
      OtherGroup(s, x, c);
      UnmovedTidy(s, n, x, c);
    }
  }

  /** Listing a group that is busy, with nobody left to unlist it, is not tidy. */
  lemma ListUntimely(s: Race, c: Cpu)
    requires Tidy(s) && Enabled(s, Advance(c)) && PcOf(s, c) == List && !Timely(s, Advance(c))
    ensures !TidyAt(Step(s, Advance(c)), c)
  {
    var n := Step(s, Advance(c));
    SameGroup(s, c, c);
    forall d | d in Group(n, c) ensures PcOf(n, d) != Unlist {
      assert d == c || PcOf(n, d) == PcOf(s, d);
    }
  }

  /** A step keeps the summary tidy if and only if it is not an untimely listing. */
  lemma StepTidy(s: Race, e: Event)
    requires Tidy(s) && Enabled(s, e) && !e.Leave?
    ensures Tidy(Step(s, e)) <==> Timely(s, e)
  {
    if Timely(s, e) {
      forall x | x in s.m.siblings ensures TidyAt(Step(s, e), x) {
        TidyStepAt(s, e, x);
      }
      SmtInside(s, e);
    } else {
      ListUntimely(s, e.c);
    }
  }

  lemma TidyStepAt(s: Race, e: Event, x: Cpu)
    requires Tidy(s) && Enabled(s, e) && !e.Leave? && Timely(s, e) && x in s.m.siblings
    ensures TidyAt(Step(s, e), x)
  {
    match e
    case Entry(c) => EntryTidy(s, c, x);
    case Exit(c) => ExitTidy(s, c, x);
    case Advance(c) =>
      if PcOf(s, c) == Test {
        TestTidy(s, c, x);
      } else if PcOf(s, c) == List {
        ListTidy(s, c, x);
      } else {
        UnlistTidy(s, c, x);
      }
  }

  lemma SmtInside(s: Race, e: Event)
    requires Tidy(s) && Enabled(s, e) && !e.Leave?
    ensures var n := Step(s, e);
            && (forall c <- n.m.smt :: c in s.m.siblings)
            && (forall c <- n.pc :: n.pc[c] != Unplug && (n.pc[c] == Unlist ==> c !in n.m.cpus))
  {
  }

  /** Idle entries and exits only. */
  predicate NoLeave(es: seq<Event>) {
    forall e <- es :: !e.Leave?
  }

  ghost predicate AllTimely(s: Race, es: seq<Event>)
    requires Run(s, es)
    decreases |es|
  {
    es != [] ==> Timely(s, es[0]) && AllTimely(Step(s, es[0]), es[1..])
  }

  ghost predicate AlwaysTidy(s: Race, es: seq<Event>)
    requires Run(s, es)
    decreases |es|
  {
    Tidy(s) && (es != [] ==> AlwaysTidy(Step(s, es[0]), es[1..]))
  }

  /** Over any interleaving the summary stays exact, up to what is pending, if and only if every listing is timely. */
  lemma {:induction false} TidyRuns(s: Race, es: seq<Event>)
    requires Tidy(s) && Run(s, es) && NoLeave(es)
    ensures AlwaysTidy(s, es) <==> AllTimely(s, es)
    ensures AllTimely(s, es) ==> Tidy(Exec(s, es))
    decreases |es|
  {
    if es != [] {
      assert es[0] in es;
      StepTidy(s, es[0]);
      if Timely(s, es[0]) {
        TidyRuns(Step(s, es[0]), es[1..]);
      }
    }
  }

  lemma BootTidy(siblings: map<Cpu, set<Cpu>>)
    requires Partition(siblings)
    ensures Tidy(Boot(siblings))
  {
    forall c | c in siblings ensures TidyAt(Boot(siblings), c) {
      assert c in Group(Boot(siblings), c);
    }
  }

  // ---------------------------------------------------------------- after an untimely listing

  /** The group is listed and busy, and nobody is about to unlist it. */
  ghost predicate Wrong(s: Race, c: Cpu) {
    && c in s.m.siblings && Group(s, c) <= s.m.smt && !Whole(s, c)
    && !Pending(s, c, Unlist) && !Pending(s, c, Unplug)
  }

  /** The event starts no handler in the group. */
  predicate StartsNone(e: Event, group: set<Cpu>) {
    e.Advance? || e.c !in group
  }

  lemma WrongStep(s: Race, e: Event, c: Cpu)
    requires Partition(s.m.siblings) && Wrong(s, c) && Enabled(s, e) && StartsNone(e, Group(s, c))
    ensures Wrong(Step(s, e), c) && Step(s, e).m.siblings == s.m.siblings
  {
    var n := Step(s, e);
    SameGroup(s, c, e.c);
    if e.c !in Group(s, c) {
      OtherGroup(s, c, e.c);
      SameGroup(s, e.c, e.c);
    }
    forall d | d in Group(n, c) ensures PcOf(n, d) != Unlist && PcOf(n, d) != Unplug {
      assert PcOf(s, d) != Unlist && PcOf(s, d) != Unplug;
    }
  }

  /** However the handlers at work go on, a wrongly listed group stays so until a handler starts in it. */
  lemma {:induction false} WrongStays(s: Race, es: seq<Event>, c: Cpu)
    requires Partition(s.m.siblings) && Wrong(s, c) && Run(s, es) && forall e <- es :: StartsNone(e, Group(s, c))
    ensures Wrong(Exec(s, es), c) && !Exact(Exec(s, es).m)
    decreases |es|
  {
    if es == [] {
      SameGroup(s, c, c);
    } else {
      assert es[0] in es;
      WrongStep(s, es[0], c);
      WrongStays(Step(s, es[0]), es[1..], c);
    }
  }

  lemma UntimelyIsWrong(s: Race, c: Cpu)
    requires Tidy(s) && Enabled(s, Advance(c)) && PcOf(s, c) == List && !Timely(s, Advance(c))
    ensures Wrong(Step(s, Advance(c)), c)
  {
    var n := Step(s, Advance(c));
    SameGroup(s, c, c);
    forall d | d in Group(n, c) ensures PcOf(n, d) != Unlist && PcOf(n, d) != Unplug {
      assert d == c || PcOf(n, d) == PcOf(s, d);
    }
  }

  // ---------------------------------------------------------------- pairs of siblings

  /** No group has more than two CPUs. */
  ghost predicate Pairs(s: Race) {
    forall c, d, e :: c in s.m.siblings && d in Group(s, c) && e in Group(s, c) && d != c && e != c ==> d == e
  }

  ghost predicate GroupAtRest(s: Race, c: Cpu) {
    forall d <- Group(s, c) :: PcOf(s, d) == Rest
  }

  /** Every group that no handler is at work in is listed if and only if it is idle as a whole. */
  ghost predicate ExactWhereAtRest(s: Race) {
    forall c <- s.m.siblings :: GroupAtRest(s, c) ==> (c in s.m.smt <==> Whole(s, c))
  }

  /** Who is about to test or to list is idle. */
  ghost predicate ListersIdle(s: Race) {
    forall c <- s.pc :: s.pc[c] == Test || s.pc[c] == List ==> c in s.m.cpus
  }

  lemma TidyWhereAtRest(s: Race)
    requires Tidy(s)
    ensures ExactWhereAtRest(s)
  {
    forall c | c in s.m.siblings && GroupAtRest(s, c) ensures c in s.m.smt <==> Whole(s, c) {
      assert TidyAt(s, c);
    }
  }

  lemma UntimelyPair(s: Race, c: Cpu)
    requires Tidy(s) && Pairs(s) && ListersIdle(s)
    requires Enabled(s, Advance(c)) && PcOf(s, c) == List && !Timely(s, Advance(c))
    ensures !ExactWhereAtRest(Step(s, Advance(c)))
  {
    var n := Step(s, Advance(c));
    SameGroup(s, c, c);
    UntimelyIsWrong(s, c);
    forall d | d in Group(n, c) ensures PcOf(n, d) == Rest {
      if d != c {
        OtherBusy(s, c, d);
        assert PcOf(n, d) == PcOf(s, d);
      }
    }
    assert GroupAtRest(n, c) && c in n.m.smt && !Whole(n, c);
  }

  /** The one sibling of a lister whose group is busy is itself busy, and so neither tests nor lists. */
  lemma OtherBusy(s: Race, c: Cpu, d: Cpu)
    requires Tidy(s) && Pairs(s) && ListersIdle(s) && c in s.m.siblings && PcOf(s, c) == List
    requires !Whole(s, c) && !Pending(s, c, Unlist) && d in Group(s, c) && d != c
    ensures PcOf(s, d) == Rest
  {
    SameGroup(s, c, c);
    assert c in s.m.cpus;
    assert forall e <- Group(s, c) :: e == c || e == d;
    assert d !in s.m.cpus;
  }

  lemma ListersStep(s: Race, e: Event)
    requires ListersIdle(s) && Enabled(s, e)
    ensures ListersIdle(Step(s, e)) && Step(s, e).m.siblings == s.m.siblings
  {
  }

  ghost predicate AlwaysExactWhereAtRest(s: Race, es: seq<Event>)
    requires Run(s, es)
    decreases |es|
  {
    ExactWhereAtRest(s) && (es != [] ==> AlwaysExactWhereAtRest(Step(s, es[0]), es[1..]))
  }

  /**
   With groups of at most two CPUs: the mask is right about every group at rest, all through a
   run, if and only if every listing in the run is timely.
   */
  lemma {:induction false} ExactPairs(s: Race, es: seq<Event>)
    requires Tidy(s) && Pairs(s) && ListersIdle(s) && Run(s, es) && NoLeave(es)
    ensures AlwaysExactWhereAtRest(s, es) <==> AllTimely(s, es)
    decreases |es|
  {
    TidyWhereAtRest(s);
    if es != [] {
      assert es[0] in es;
      var n := Step(s, es[0]);
      if Timely(s, es[0]) {
        StepTidy(s, es[0]);
        ListersStep(s, es[0]);
        ExactPairs(n, es[1..]);
      } else {
        UntimelyPair(s, es[0].c);
      }
    }
  }

  // ---------------------------------------------------------------- core exits too

  /**
   With core exits, up to what is pending: no idle group is missed, and who is listed is idle,
   or is yet to be unlisted.
   */
  ghost predicate Loose(s: Race) {
    && Partition(s.m.siblings)
    && (forall c <- s.m.smt :: c in s.m.siblings)
    && (forall c <- s.pc :: s.pc[c] == Unlist || s.pc[c] == Unplug ==> c !in s.m.cpus)
    && (forall c <- s.m.smt :: ListedOk(s, c))
    && (forall c <- s.m.siblings :: Whole(s, c) && c !in s.m.smt ==> Pending(s, c, Test) || Pending(s, c, List))
  }

  ghost predicate ListedOk(s: Race, c: Cpu) {
    c in s.m.cpus || Pending(s, c, Unlist) || PcOf(s, c) == Unplug
  }

  /** A listing in time: whoever of the group is busy is yet to be unlisted. */
  ghost predicate InTime(s: Race, e: Event)
    requires Enabled(s, e)
  {
    e.Advance? && PcOf(s, e.c) == List ==> forall d <- Group(s, e.c) :: ListedOk(s, d)
  }

  lemma LooseListed(s: Race, e: Event, x: Cpu)
    requires Loose(s) && Enabled(s, e) && InTime(s, e) && x in Step(s, e).m.smt
    ensures ListedOk(Step(s, e), x)
  {
    var n := Step(s, e);
    SameGroup(s, e.c, e.c);
    assert x in s.m.smt || x in Group(s, e.c);
    assert x in s.m.siblings;
    SameGroup(s, x, e.c);
    assert ListedOk(s, x);
    if Pending(s, x, Unlist) && PcOf(s, e.c) != Unlist {
      PendingKept(s, n, x, e.c, Unlist);
    } else if Pending(s, x, Unlist) {
      assert e.c !in Group(s, x);
      var d :| d in Group(s, x) && PcOf(s, d) == Unlist;
      assert d in Group(n, x) && PcOf(n, d) == Unlist;
    } else if e.Exit? && e.c == x {
      assert x in Group(n, x) && PcOf(n, x) == Unlist;
    }
  }

  lemma LooseWhole(s: Race, e: Event, x: Cpu)
    requires Loose(s) && Enabled(s, e) && x in s.m.siblings && Whole(Step(s, e), x) && x !in Step(s, e).m.smt
    ensures Pending(Step(s, e), x, Test) || Pending(Step(s, e), x, List)
  {
    var n := Step(s, e);
    SameGroup(s, x, e.c);
    SameGroup(s, e.c, e.c);
    if e.c in Group(s, x) {
      assert e.c in n.m.cpus;
      if e.Entry? {
        assert PcOf(n, e.c) == Test;
      } else {
        assert PcOf(s, e.c) == Test;
        assert PcOf(n, e.c) == List;
      }
    } else {
      assert Whole(s, x);
      if x !in s.m.smt {
        var pc := if Pending(s, x, Test) then Test else List;
        var d :| d in Group(s, x) && PcOf(s, d) == pc;
        assert d in Group(n, x) && PcOf(n, d) == pc;
      } else {
        OtherGroup(s, x, e.c);
      }
    }
  }

  lemma LooseFrame(s: Race, e: Event)
    requires Loose(s) && Enabled(s, e)
    ensures var n := Step(s, e);
            && n.m.siblings == s.m.siblings && (forall c <- n.m.smt :: c in n.m.siblings)
            && (forall c <- n.pc :: n.pc[c] == Unlist || n.pc[c] == Unplug ==> c !in n.m.cpus)
  {
  }

  lemma LateListing(s: Race, c: Cpu)
    requires Loose(s) && Enabled(s, Advance(c)) && PcOf(s, c) == List && !InTime(s, Advance(c))
    ensures !Loose(Step(s, Advance(c)))
  {
    var n := Step(s, Advance(c));
    var d :| d in Group(s, c) && !ListedOk(s, d);
    assert d in n.m.smt && Group(n, d) == Group(s, d);
    forall x | x in Group(n, d) ensures PcOf(n, x) != Unlist {
      assert x == c || PcOf(n, x) == PcOf(s, x);
    }
    assert !ListedOk(n, d);
  }

  lemma StepLoose(s: Race, e: Event)
    requires Loose(s) && Enabled(s, e)
    ensures Loose(Step(s, e)) <==> InTime(s, e)
  {
    if InTime(s, e) {
      LooseFrame(s, e);
      forall x | x in Step(s, e).m.smt ensures ListedOk(Step(s, e), x) {
        LooseListed(s, e, x);
      }
      forall x | x in s.m.siblings && Whole(Step(s, e), x) && x !in Step(s, e).m.smt
        ensures Pending(Step(s, e), x, Test) || Pending(Step(s, e), x, List)
      {
        LooseWhole(s, e, x);
      }
    } else {
      LateListing(s, e.c);
    }
  }

  ghost predicate AllInTime(s: Race, es: seq<Event>)
    requires Run(s, es)
    decreases |es|
  {
    es != [] ==> InTime(s, es[0]) && AllInTime(Step(s, es[0]), es[1..])
  }

  ghost predicate AlwaysLoose(s: Race, es: seq<Event>)
    requires Run(s, es)
    decreases |es|
  {
    Loose(s) && (es != [] ==> AlwaysLoose(Step(s, es[0]), es[1..]))
  }

  /**
   Over any interleaving of idle entries, idle exits and core exits, no idle group is missed and
   the summary stays inside the idle mask, up to what is pending, if and only if every listing
   is in time; and with no handler at work that is so without reserve.
   */
  lemma {:induction false} LooseRuns(s: Race, es: seq<Event>)
    requires Loose(s) && Run(s, es)
    ensures AlwaysLoose(s, es) <==> AllInTime(s, es)
    ensures AllInTime(s, es) ==> Loose(Exec(s, es)) && (AtRest(Exec(s, es)) ==> Between(Exec(s, es).m))
    decreases |es|
  {
    if es == [] {
      LooseAtRest(s);
    } else {
      StepLoose(s, es[0]);
      if InTime(s, es[0]) {
        LooseRuns(Step(s, es[0]), es[1..]);
      }
    }
  }

  lemma LooseAtRest(s: Race)
    requires Loose(s)
    ensures AtRest(s) ==> Between(s.m)
  {
    if AtRest(s) {
      forall c | c in s.m.smt ensures c in s.m.cpus {
        assert ListedOk(s, c);
      }
      forall c | c in WhollyIdle(s.m) ensures c in s.m.smt {
        assert Whole(s, c);
      }
    }
  }

  lemma BootLoose(siblings: map<Cpu, set<Cpu>>)
    requires Partition(siblings)
    ensures Loose(Boot(siblings)) && ListersIdle(Boot(siblings))
  {
    forall c | c in siblings ensures !Whole(Boot(siblings), c) {
      assert c in Group(Boot(siblings), c);
    }
  }

  // ---------------------------------------------------------------- when listing is timely

  /** A sibling's exit ends between this CPU's test and its listing. */
  ghost predicate ExitsBetween(s: Race, e: Event)
    requires Enabled(s, e)
  {
    e.Advance? && PcOf(s, e.c) == Unlist && Pending(s, e.c, List)
  }

  ghost predicate NoExitBetween(s: Race, es: seq<Event>)
    requires Run(s, es)
    decreases |es|
  {
    es != [] ==> !ExitsBetween(s, es[0]) && NoExitBetween(Step(s, es[0]), es[1..])
  }

  /** Whoever is about to list found the group idle, and it still is, or a sibling has only begun to exit. */
  ghost predicate ListsOk(s: Race) {
    forall c <- s.m.siblings :: PcOf(s, c) == List ==> Whole(s, c) || Pending(s, c, Unlist)
  }

  lemma ListsStep(s: Race, e: Event)
    requires Partition(s.m.siblings) && ListsOk(s) && Enabled(s, e) && !e.Leave? && !ExitsBetween(s, e)
    ensures ListsOk(Step(s, e)) && Timely(s, e)
  {
    var n := Step(s, e);
    forall c | c in s.m.siblings && PcOf(n, c) == List ensures Whole(n, c) || Pending(n, c, Unlist) {
      SameGroup(s, c, e.c);
      if e.Exit? && e.c in Group(s, c) {
        assert PcOf(n, e.c) == Unlist;
      } else if PcOf(s, c) == List && !Whole(s, c) {
        if PcOf(s, e.c) == Unlist && e.c in Group(s, c) {
          SameGroup(s, e.c, c);
          assert Pending(s, e.c, List);
        } else {
          var d :| d in Group(s, c) && PcOf(s, d) == Unlist;
          assert d in Group(n, c) && PcOf(n, d) == Unlist;
        }
      }
    }
  }

  lemma {:induction false} NoExitMeansTimely(s: Race, es: seq<Event>)
    requires Partition(s.m.siblings) && ListsOk(s) && Run(s, es) && NoLeave(es) && NoExitBetween(s, es)
    ensures AllTimely(s, es)
    decreases |es|
  {
    if es != [] {
      assert es[0] in es;
      ListsStep(s, es[0]);
      NoExitMeansTimely(Step(s, es[0]), es[1..]);
    }
  }

  /**
   If no sibling's exit ends between a test and the listing it leads to, the masks agree whenever no
   handler is at work.
   */
  lemma ExactAtRest(siblings: map<Cpu, set<Cpu>>, es: seq<Event>)
    requires Partition(siblings) && Run(Boot(siblings), es) && NoLeave(es) && NoExitBetween(Boot(siblings), es)
    requires AtRest(Exec(Boot(siblings), es))
    ensures Exact(Exec(Boot(siblings), es).m)
  {
    var s := Boot(siblings);
    BootTidy(siblings);
    NoExitMeansTimely(s, es);
    TidyRuns(s, es);
    TidyAtRest(Exec(s, es));
  }

  // ---------------------------------------------------------------- the race

  /** CPUs 0 and 1 are siblings, both are marked idle, and 1 has seen that and is about to list them. */
  ghost predicate AboutToList(s: Race) {
    && s.m.siblings == map[0 := {0, 1}, 1 := {0, 1}]
    && s.m.cpus == {0, 1} && s.m.smt == {} && PcOf(s, 0) == Rest && PcOf(s, 1) == List
  }

  /** CPU 0 is busy, no handler is at work, and both CPUs are listed. */
  ghost predicate WronglyListed(s: Race) {
    && s.m.siblings == map[0 := {0, 1}, 1 := {0, 1}]
    && s.m.cpus == {1} && s.m.smt == {0, 1} && AtRest(s) && !Exact(s.m) && !Between(s.m)
  }

  lemma BothGoIdle()
    ensures var g := map[0 := {0, 1}, 1 := {0, 1}];
            var es := [Entry(0), Advance(0), Entry(1), Advance(1)];
            Partition(g) && Run(Boot(g), es) && AboutToList(Exec(Boot(g), es))
  {
    var g: map<Cpu, set<Cpu>> := map[0 := {0, 1}, 1 := {0, 1}];
    var es := [Entry(0), Advance(0), Entry(1), Advance(1)];
    var s0 := Boot(g);
    var s1 := Step(s0, Entry(0));
    assert 1 in g[0] && 1 !in s1.m.cpus;
    var s2 := Step(s1, Advance(0));
    var s3 := Step(s2, Entry(1));
    assert s3.m.cpus == {0, 1} && g[1] <= s3.m.cpus;
    var s4 := Step(s3, Advance(1));
    StepByStep([s0, s1, s2, s3, s4], es);
  }

  lemma ExitInBetween(s: Race)
    requires AboutToList(s)
    ensures var es := [Exit(0), Advance(0), Advance(1)]; Run(s, es) && WronglyListed(Exec(s, es))
  {
    var s1 := Step(s, Exit(0));
    var s2 := Step(s1, Advance(0));
    var s3 := Step(s2, Advance(1));
    StepByStep([s, s1, s2, s3], [Exit(0), Advance(0), Advance(1)]);
    assert s3.m.cpus == {1} && s3.m.smt == {0, 1};
    assert 0 in s3.m.smt && 0 !in s3.m.cpus && 0 in s3.m.siblings[0];
  }

  lemma {:induction false} RunJoin(s: Race, a: seq<Event>, b: seq<Event>)
    requires Run(s, a) && Run(Exec(s, a), b)
    ensures Run(s, a + b) && Exec(s, a + b) == Exec(Exec(s, a), b)
    decreases |a|
  {
    if a == [] {
      assert a + b == b;
    } else {
      assert (a + b)[1..] == a[1..] + b;
      RunJoin(Step(s, a[0]), a[1..], b);
    }
  }

  /** Two siblings: 0 exits between the test of 1 and its listing, and both stay listed though 0 is busy. */
  lemma ExitRaces()
    ensures var g := map[0 := {0, 1}, 1 := {0, 1}];
            var es := [Entry(0), Advance(0), Entry(1), Advance(1)] + [Exit(0), Advance(0), Advance(1)];
            Partition(g) && Run(Boot(g), es) && WronglyListed(Exec(Boot(g), es))
  {
    var g: map<Cpu, set<Cpu>> := map[0 := {0, 1}, 1 := {0, 1}];
    BothGoIdle();
    ExitInBetween(Exec(Boot(g), [Entry(0), Advance(0), Entry(1), Advance(1)]));
    RunJoin(Boot(g), [Entry(0), Advance(0), Entry(1), Advance(1)], [Exit(0), Advance(0), Advance(1)]);
  }

  lemma {:induction false} StepByStep(ss: seq<Race>, es: seq<Event>)
    requires |ss| == |es| + 1
    requires forall i :: 0 <= i < |es| ==> Enabled(ss[i], es[i]) && ss[i + 1] == Step(ss[i], es[i])
    ensures Run(ss[0], es) && Exec(ss[0], es) == ss[|es|]
    decreases |es|
  {
    if es != [] {
      StepByStep(ss[1..], es[1..]);
    }
  }
}
