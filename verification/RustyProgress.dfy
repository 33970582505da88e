/**
 How long a racing call of `rusty_select_cpu` can take: its own steps are bounded by the size of
 its cascade and of the machine, and by the idle bits set while it is under way.
 */
module RustyProgress {
  import opened Queues
  import opened RustyClaims
  import RustyPolicy

  /** Steps left to the next failed claim, or to the end of the attempt. */
  function Ahead(pc: Pc): nat {
    match pc
    case Out => 0
    case Retry => 5
    case LookCpu => 4
    case Found(_) => 3
    case Clear(_) => 2
    case ClearOne(_) => 2
    case Claim(_) => 1
  }

  /** Steps left in the attempt under way: six for each failed claim its account still allows. */
  function Inner(x: Sel): int {
    if x.pc == Out then 0 else Ahead(x.pc) + if x.it.loop then 6 * (x.it.start + x.it.since - x.it.tries) else 0
  }

  /** More steps than an attempt can take that begins with at most `n` idle bits. */
  function PerAttempt(n: nat): nat {
    6 * n + 6
  }

  /** Steps left to a call on a machine of `n` CPUs. */
  function StepsLeft(x: Sel, n: nat): int {
    if x.ret.Some? then 0 else |x.todo| * PerAttempt(n) + Inner(x)
  }

  lemma OneLess(a: int, w: int)
    ensures a * w == (a - 1) * w + w
  {
  }

  lemma AttemptTakes(s: State, x: Sel, pick: int, n: nat)
    requires x.pc == Out && x.ret.None? && x.todo != [] && |Bits(s)| <= n
    ensures StepsLeft(Attempted(s, x, pick), n) < StepsLeft(x, n)
  {
    OneLess(|x.todo|, PerAttempt(n));
    if Attempted(s, x, pick).ret.None? {
      AttemptGoesOn(s, x, pick);
      assert Inner(Attempted(s, x, pick)) < PerAttempt(n);
    } else {
      Enough(|x.todo|, PerAttempt(n));
    }
  }

  lemma Enough(a: nat, w: nat)
    ensures a * w >= 0 && (a > 0 ==> a * w >= w)
  {
  }

  lemma TriesFit(s: State, x: Sel)
    requires Paid(s, x)
    ensures Inner(x) >= Ahead(x.pc)
  {
  }

  lemma InnerDrops(s: State, i: nat, pick: int)
    requires i < |s.sels| && s.sels[i].pc != Out && s.sels[i].ret.None? && !s.sels[i].pc.Claim?
    requires Inner(s.sels[i]) >= Ahead(s.sels[i].pc)
    ensures Inner(OpStep(s, i, pick).sels[i]) < Inner(s.sels[i])
  {
  }

  lemma ClaimDrops(s: State, i: nat, pick: int)
    requires i < |s.sels| && s.sels[i].pc.Claim? && s.sels[i].ret.None?
    requires Inner(s.sels[i]) >= Ahead(s.sels[i].pc)
    ensures var y := OpStep(s, i, pick).sels[i]; y.ret.None? ==> Inner(y) < Inner(s.sels[i])
  {
  }

  lemma MiddleTakes(s: State, i: nat, pick: int, n: nat)
    requires i < |s.sels| && s.sels[i].pc != Out && s.sels[i].ret.None? && Paid(s, s.sels[i])
    ensures StepsLeft(OpStep(s, i, pick).sels[i], n) < StepsLeft(s.sels[i], n)
  {
    var x := s.sels[i];
    TriesFit(s, x);
    if x.pc.Claim? {
      ClaimDrops(s, i, pick);
    } else {
      InnerDrops(s, i, pick);
    }
    StepStays(s, i, pick);
    Enough(|x.todo|, PerAttempt(n));
  }

  lemma OpTakes(s: State, i: nat, pick: int, n: nat)
    requires i < |s.sels| && s.sels[i].ret.None? && s.sels[i].todo != [] && Paid(s, s.sels[i]) && |Bits(s)| <= n
    ensures StepsLeft(OpStep(s, i, pick).sels[i], n) < StepsLeft(s.sels[i], n)
  {
    var x := s.sels[i];
    if x.pc == Out {
      AttemptTakes(s, x, pick, n);
    } else {
      MiddleTakes(s, i, pick, n);
    }
  }

  /** The caller's own steps in a run, and the idle bits set in it. */
  function OwnSteps(es: seq<Event>, i: nat): nat {
    if es == [] then 0 else (if es[0].Op? && es[0].i == i then 1 else 0) + OwnSteps(es[1..], i)
  }

  function BitsSet(es: seq<Event>): nat {
    if es == [] then 0 else (if es[0].EnterIdle? then 1 else 0) + BitsSet(es[1..])
  }

  /** The run sets bits of the machine's CPUs only, and has no new call of this caller. */
  predicate WithinCall(e: Event, i: nat, cpus: set<int>) {
    (e.EnterIdle? ==> e.c in cpus) && !(e.Begin? && e.i == i)
  }

  lemma StepTakes(s: State, e: Event, i: nat, cpus: set<int>)
    requires AllPaid(s) && CallsOk(s) && Enabled(s, e) && i < |s.sels| && Bits(s) <= cpus && WithinCall(e, i, cpus)
    ensures i < |Step(s, e).sels| && Bits(Step(s, e)) <= cpus
    ensures StepsLeft(Step(s, e).sels[i], |cpus|) + (if e.Op? && e.i == i then 1 else 0)
              <= StepsLeft(s.sels[i], |cpus|) + if e.EnterIdle? then 6 else 0
  {
    match e
    case Begin(j, _) =>
    case Op(j, pick) =>
      OpShrinks(s, j, pick);
      if j == i {
        CardLe(Bits(s), cpus);
        assert CallOk(s.sels[i]) && Paid(s, s.sels[i]);
        OpTakes(s, i, pick, |cpus|);
      }
    case EnterIdle(c) =>
    case ExitIdle(_) =>
  }

  /** Whatever the others do, the caller's steps use up what is left to its call, six more for each bit set. */
  lemma {:induction false} StepsBounded(s: State, es: seq<Event>, i: nat, cpus: set<int>)
    requires AllPaid(s) && CallsOk(s) && Run(s, es) && i < |s.sels| && Bits(s) <= cpus
    requires forall e <- es :: WithinCall(e, i, cpus)
    ensures i < |Exec(s, es).sels|
    ensures OwnSteps(es, i) + StepsLeft(Exec(s, es).sels[i], |cpus|) <= StepsLeft(s.sels[i], |cpus|) + 6 * BitsSet(es)
    decreases |es|
  {
    if es != [] {
      assert es[0] in es;
      StepTakes(s, es[0], i, cpus);
      PaidStep(s, es[0]);
      CallsStep(s, es[0]);
      StepsBounded(Step(s, es[0]), es[1..], i, cpus);
    }
  }

  lemma LeftNonNegative(s: State, x: Sel, n: nat)
    requires Paid(s, x)
    ensures StepsLeft(x, n) >= 0
  {
    Enough(|x.todo|, PerAttempt(n));
  }

  /**
   A call that has just begun gives its answer, if it is let go on, within eleven times six steps of
   its own for each CPU and one more, and six for each idle bit set meanwhile.
   */
  lemma CallsAreShort(b: State, i: nat, k: Call, es: seq<Event>, cpus: set<int>)
    requires AllPaid(b) && CallsOk(b) && Enabled(b, Begin(i, k)) && Bits(b) <= cpus
    requires Run(Step(b, Begin(i, k)), es) && forall e <- es :: WithinCall(e, i, cpus)
    ensures OwnSteps(es, i) <= 66 * (|cpus| + 1) + 6 * BitsSet(es)
  {
    var s := Step(b, Begin(i, k));
    PaidStep(b, Begin(i, k));
    CallsStep(b, Begin(i, k));
    StepsBounded(s, es, i, cpus);
    PaidRun(s, es);
    LeftNonNegative(Exec(s, es), Exec(s, es).sels[i], |cpus|);
    CascadeLength(k, |cpus|);
  }

  lemma CascadeLength(k: Call, n: nat)
    ensures StepsLeft(Started(k), n) <= 66 * (n + 1)
  {
    assert |Cascade(k)| <= 11;
    if |Cascade(k)| < 11 {
      LessTimes(|Cascade(k)|, 11, PerAttempt(n));
    }
  }

  lemma LessTimes(a: nat, b: nat, w: nat)
    requires a <= b
    ensures a * w <= b * w
  {
  }

  /** And it can be let go on: a call without an answer has a step to take, whatever the others have done. */
  lemma CanGoOn(s: State, i: nat) returns (pick: int)
    requires i < |s.sels| && s.sels[i].ret.None?
    ensures Enabled(s, Op(i, pick))
  {
    var x := s.sels[i];
    if Chooses(s, x) {
      Chosen(s, x);
      pick :| pick in Choices(s, x);
    } else {
      pick := 0;
    }
  }

  lemma Chosen(s: State, x: Sel)
    requires Chooses(s, x)
    ensures exists pick :: pick in Choices(s, x)
  {
    if x.pc == Retry {
      RustyPolicy.Common(s.smt, x.it.allowed);
      var c :| c in s.smt && c in x.it.allowed;
      assert c in Choices(s, x);
    } else if x.pc == LookCpu {
      RustyPolicy.Common(s.cpu, x.it.allowed);
      var c :| c in s.cpu && c in x.it.allowed;
      assert c in Choices(s, x);
    } else {
      RustyPolicy.Inhabited(x.todo[0].mask);
      var c :| c in x.todo[0].mask;
      assert c in Choices(s, x);
    }
  }
}
