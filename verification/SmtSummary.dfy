/**
 The two idle masks of saakm_central: `cpus` holds the idle CPUs, `smt` is meant to hold the
 CPUs of those sibling groups that are idle as a whole.
 */
module SmtSummary {

  type Cpu = nat

  datatype CoreState = ActiveCore | IdleCore

  /** `siblings` is cpu_smt_mask: fixed, and a partition of the CPUs. */
  datatype State = State(siblings: map<Cpu, set<Cpu>>, core: map<Cpu, CoreState>, cpus: set<Cpu>, smt: set<Cpu>)

  datatype Event =
    | CoreEntry(c: Cpu)
    | CoreExit(c: Cpu)
    | EntryIdle(c: Cpu)
    | ExitIdle(c: Cpu)

  ghost predicate Partition(siblings: map<Cpu, set<Cpu>>) {
    forall c <- siblings :: c in siblings[c] && forall d <- siblings[c] :: d in siblings && siblings[d] == siblings[c]
  }

  predicate Enabled(s: State, e: Event) {
    e.c in s.siblings
  }

  function Step(s: State, e: Event): State
    requires Enabled(s, e)
  {
    var c := e.c;
    match e
    case CoreEntry(_) => s.(core := s.core[c := ActiveCore])
    case CoreExit(_) => s.(core := s.core[c := ActiveCore], cpus := s.cpus - {c}, smt := s.smt - {c})
    case EntryIdle(_) =>
      s.(core := s.core[c := IdleCore], cpus := s.cpus + {c},
         smt := if s.siblings[c] <= s.cpus + {c} then s.smt + s.siblings[c] else s.smt)
    case ExitIdle(_) => s.(core := s.core[c := ActiveCore], cpus := s.cpus - {c}, smt := s.smt - s.siblings[c])
  }

  ghost predicate Run(s: State, es: seq<Event>)
    decreases |es|
  {
    es != [] ==> Enabled(s, es[0]) && Run(Step(s, es[0]), es[1..])
  }

  ghost function Exec(s: State, es: seq<Event>): State
    requires Run(s, es)
    decreases |es|
  {
    if es == [] then s else Exec(Step(s, es[0]), es[1..])
  }

  function Boot(siblings: map<Cpu, set<Cpu>>): State {
    State(siblings, map[], {}, {})
  }

  /** The CPUs whose whole sibling group is idle. */
  function WhollyIdle(s: State): set<Cpu> {
    set c <- s.siblings | s.siblings[c] <= s.cpus
  }

  /** The same set, as the union of the groups that are idle as a whole. */
  lemma UnionOfIdleGroups(s: State, d: Cpu)
    requires Partition(s.siblings)
    ensures d in WhollyIdle(s) <==> exists c <- s.siblings :: s.siblings[c] <= s.cpus && d in s.siblings[c]
  {
    if d in WhollyIdle(s) {
      assert d in s.siblings[d];
    }
  }

  ghost predicate Exact(s: State) {
    s.smt == WhollyIdle(s)
  }

  /** No idle group is missed, and no CPU is listed that is not idle itself. */
  ghost predicate Between(s: State) {
    WhollyIdle(s) <= s.smt <= s.cpus
  }

  /** The core exits that leave the summary as it should be. */
  predicate Harmless(s: State, e: Event)
    requires Enabled(s, e)
  {
    e.CoreExit? ==> e.c !in s.smt || s.siblings[e.c] == {e.c}
  }

  lemma EntryExact(s: State, c: Cpu)
    requires Partition(s.siblings) && Exact(s) && c in s.siblings
    ensures Exact(Step(s, EntryIdle(c)))
  {
    var n := Step(s, EntryIdle(c));
    forall d ensures d in n.smt <==> d in WhollyIdle(n) {
      if d in s.siblings && s.siblings[d] <= n.cpus && d !in s.smt {
        assert c in s.siblings[d];
      }
    }
  }

  lemma ExitExact(s: State, c: Cpu)
    requires Partition(s.siblings) && Exact(s) && c in s.siblings
    ensures Exact(Step(s, ExitIdle(c)))
  {
    var n := Step(s, ExitIdle(c));
    forall d ensures d in n.smt <==> d in WhollyIdle(n) {
      if d in s.siblings && c in s.siblings[d] {
        assert s.siblings[d] == s.siblings[c];
      }
    }
  }

  lemma NotAlone(g: set<Cpu>, c: Cpu) returns (d: Cpu)
    requires c in g && g != {c}
    ensures d in g && d != c
  {
    assert g == (g - {c}) + {c};
    d :| d in g - {c};
  }

  /**
   From an exact summary a core exit leaves an exact one if and only if its group was not listed, or
   is that CPU alone.
   */
  lemma CoreExitExact(s: State, c: Cpu)
    requires Partition(s.siblings) && Exact(s) && c in s.siblings
    ensures Exact(Step(s, CoreExit(c))) <==> Harmless(s, CoreExit(c))
  {
    var n := Step(s, CoreExit(c));
    if Harmless(s, CoreExit(c)) {
      forall d ensures d in n.smt <==> d in WhollyIdle(n) {
        if d in s.siblings && c in s.siblings[d] {
          assert s.siblings[d] == s.siblings[c];
        }
      }
    } else {
      var d := NotAlone(s.siblings[c], c);
      assert d in n.smt && c in s.siblings[d] && c !in n.cpus;
    }
  }

  lemma StepExact(s: State, e: Event)
    requires Partition(s.siblings) && Exact(s) && Enabled(s, e)
    ensures Exact(Step(s, e)) <==> Harmless(s, e)
  {
    match e
    case CoreEntry(_) =>
    case CoreExit(c) => CoreExitExact(s, c);
    case EntryIdle(c) => EntryExact(s, c);
    case ExitIdle(c) => ExitExact(s, c);
  }

  ghost predicate AllHarmless(s: State, es: seq<Event>)
    requires Run(s, es)
    decreases |es|
  {
    es != [] ==> Harmless(s, es[0]) && AllHarmless(Step(s, es[0]), es[1..])
  }

  ghost predicate AlwaysExact(s: State, es: seq<Event>)
    requires Run(s, es)
    decreases |es|
  {
    Exact(s) && (es != [] ==> AlwaysExact(Step(s, es[0]), es[1..]))
  }

  /** The summary is exact all through a run if and only if every core exit in it is harmless. */
  lemma {:induction false} ExactRuns(s: State, es: seq<Event>)
    requires Partition(s.siblings) && Exact(s) && Run(s, es)
    ensures AlwaysExact(s, es) <==> AllHarmless(s, es)
    decreases |es|
  {
    if es != [] {
      StepExact(s, es[0]);
      if Exact(Step(s, es[0])) {
        ExactRuns(Step(s, es[0]), es[1..]);
      }
    }
  }

  /** With idle entries and exits only, the summary is exact whatever their order. */
  lemma {:induction false} ExactSummary(s: State, es: seq<Event>)
    requires Partition(s.siblings) && Exact(s) && Run(s, es) && forall e <- es :: !e.CoreExit?
    ensures Exact(Exec(s, es)) && AlwaysExact(s, es)
    decreases |es|
  {
    if es != [] {
      assert !es[0].CoreExit?;
      StepExact(s, es[0]);
      ExactSummary(Step(s, es[0]), es[1..]);
    }
  }

  // ---------------------------------------------------------------- what the mask of idle CPUs stands for

  /** Whether a CPU was last reported idle; the entry of its core says nothing about that. */
  function LastIdle(es: seq<Event>, c: Cpu, was: bool): bool {
    if es == [] then was
    else LastIdle(es[1..], c, if es[0].c != c || es[0].CoreEntry? then was else es[0].EntryIdle?)
  }

  /** The state its last event left a core in. */
  function LastState(es: seq<Event>, c: Cpu, was: CoreState): CoreState {
    if es == [] then was
    else LastState(es[1..], c, if es[0].c != c then was else if es[0].EntryIdle? then IdleCore else ActiveCore)
  }

  /** The mask of idle CPUs is that of the CPUs last reported idle. */
  lemma {:induction false} CpusAreIdle(s: State, es: seq<Event>, c: Cpu)
    requires Run(s, es)
    ensures c in Exec(s, es).cpus <==> LastIdle(es, c, c in s.cpus)
    decreases |es|
  {
    if es != [] {
      CpusAreIdle(Step(s, es[0]), es[1..], c);
    }
  }

  lemma {:induction false} CoreStates(s: State, es: seq<Event>, c: Cpu)
    requires Run(s, es) && (c in s.core || exists e <- es :: e.c == c)
    ensures c in Exec(s, es).core
    ensures Exec(s, es).core[c] == LastState(es, c, if c in s.core then s.core[c] else ActiveCore)
    decreases |es|
  {
    if es != [] {
      assert es[0].c != c ==> forall e <- es :: e.c == c ==> e in es[1..];
      CoreStates(Step(s, es[0]), es[1..], c);
    }
  }

  lemma StepBetween(s: State, e: Event)
    requires Partition(s.siblings) && Between(s) && Enabled(s, e)
    ensures Between(Step(s, e)) && Step(s, e).siblings == s.siblings
  {
    var n := Step(s, e);
    forall d | d in WhollyIdle(n) ensures d in n.smt {
      if e.c in s.siblings[d] {
        assert s.siblings[d] == s.siblings[e.c];
      } else {
        assert s.siblings[d] <= s.cpus;
        assert d in WhollyIdle(s);
        if d in s.siblings[e.c] {
          assert s.siblings[d] == s.siblings[e.c];
        }
        assert d in s.siblings[d];
      }
    }
    if e.ExitIdle? {
      assert e.c in s.siblings[e.c];
    }
  }

  /** Whatever the core exits, no idle group is missed and the summary stays inside the idle mask. */
  lemma {:induction false} BetweenRuns(s: State, es: seq<Event>)
    requires Partition(s.siblings) && Between(s) && Run(s, es)
    ensures Between(Exec(s, es))
    decreases |es|
  {
    if es != [] {
      StepBetween(s, es[0]);
      BetweenRuns(Step(s, es[0]), es[1..]);
    }
  }

  lemma BootExact(siblings: map<Cpu, set<Cpu>>)
    requires Partition(siblings)
    ensures Exact(Boot(siblings)) && Between(Boot(siblings))
  {
    forall c <- siblings ensures !(siblings[c] <= {}) {
      assert c in siblings[c];
    }
  }

  /** A CPU that goes idle again after its core exit puts both masks back. */
  lemma ReentryRepairs(s: State, c: Cpu)
    requires Partition(s.siblings) && Exact(s) && c in s.siblings && c in s.cpus
    ensures var n := Step(Step(s, CoreExit(c)), EntryIdle(c)); n.cpus == s.cpus && n.smt == s.smt
  {
    var n := Step(Step(s, CoreExit(c)), EntryIdle(c));
    assert (s.cpus - {c}) + {c} == s.cpus;
    forall d ensures d in n.smt <==> d in s.smt {
      if d in s.siblings[c] {
        assert s.siblings[d] == s.siblings[c];
      }
      assert c in s.siblings[c];
    }
  }

  /** Two siblings, both idle, one exits: the other stays listed although its group is not idle. */
  lemma ExitBreaks()
    ensures var g := map[0 := {0, 1}, 1 := {0, 1}];
            var es := [EntryIdle(0), EntryIdle(1), CoreExit(0)];
            && Partition(g) && Run(Boot(g), es)
            && Exec(Boot(g), es).smt == {1} && WhollyIdle(Exec(Boot(g), es)) == {}
  {
    var g: map<Cpu, set<Cpu>> := map[0 := {0, 1}, 1 := {0, 1}];
    var s0 := Boot(g);
    var s1 := Step(s0, EntryIdle(0));
    var s2 := Step(s1, EntryIdle(1));
    var s3 := Step(s2, CoreExit(0));
    var es := [EntryIdle(0), EntryIdle(1), CoreExit(0)];
    assert 1 !in s1.cpus;
    assert s1.smt == {} && s2.smt == {0, 1} && s3.smt == {1} && s3.cpus == {1};
    assert es[1..] == [EntryIdle(1), CoreExit(0)] && es[1..][1..] == [CoreExit(0)] && es[1..][1..][1..] == [];
    assert Run(s3, []);
    assert Run(s2, es[1..][1..]) && Exec(s2, es[1..][1..]) == s3;
    assert Run(s1, es[1..]) && Exec(s1, es[1..]) == s3;
    assert Exec(s0, es) == s3;
    assert 0 in g[0] && 0 in g[1] && 0 !in s3.cpus;
  }

  // ---------------------------------------------------------------- the handlers

  class Central {
    const siblings: map<Cpu, set<Cpu>>
    var core: map<Cpu, CoreState>
    var cpus: set<Cpu>
    var smt: set<Cpu>

    ghost function View(): State
      reads this
    {
      State(siblings, core, cpus, smt)
    }

    constructor (s: map<Cpu, set<Cpu>>)
      ensures View() == Boot(s)
    {
      siblings, core, cpus, smt := s, map[], {}, {};
    }

    method CentralCoreEntry(c: Cpu)
      requires c in siblings
      modifies this
      ensures View() == Step(old(View()), CoreEntry(c))
    {
      core := core[c := ActiveCore];
    }

    method CentralCoreExit(c: Cpu)
      requires c in siblings
      modifies this
      ensures View() == Step(old(View()), CoreExit(c))
    {
      core := core[c := ActiveCore];
      cpus := cpus - {c};
      smt := smt - {c};
    }

    method CentralEntryIdle(c: Cpu)
      requires c in siblings
      modifies this
      ensures View() == Step(old(View()), EntryIdle(c))
    {
      core := core[c := IdleCore];
      cpus := cpus + {c};
      if siblings[c] <= cpus {
        smt := smt + siblings[c];
      }
    }

    method CentralExitIdle(c: Cpu)
      requires c in siblings
      modifies this
      ensures View() == Step(old(View()), ExitIdle(c))
    {
      core := core[c := ActiveCore];
      cpus := cpus - {c};
      smt := smt - siblings[c];
    }
  }
}
