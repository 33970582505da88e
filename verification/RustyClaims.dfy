/**
 Calls of `rusty_select_cpu` racing for idle CPUs.  Each step is one operation on one of the two
 masks, or one look at them; the final test-and-clear of the CPU mask is a single step.
 */
module RustyClaims {
  import opened Queues
  import RustyPolicy

  /** What a sync wakeup knows: its waker's domain and CPU, and whether the waker's side allows it to stay there. */
  datatype Sync = Sync(near: set<int>, waker: int, willing: bool)

  /**
   What a call is given: the task's previous CPU and domain mask, whether it is pinned, and
   the greedy mask it may fall back on, empty for a task that may not run everywhere.
   */
  datatype Call = Call(prev: int, mask: set<int>, pinned: bool, sync: Option<Sync>, greedy: set<int>)

  /** What a call does one after the other, until one of them gives the answer. */
  datatype Attempt =
    | SyncHome                                // claim prev if it is in the waker's domain
    | SyncWaker                               // stay with the waker if its domain has an idle CPU
    | LookCores                               // note whether there is any idle core
    | HomeCore                                // claim prev if its whole core is idle
    | PickIn(mask: set<int>, core: bool)      // pick_idle_cpu; with `core` only if an idle core was seen
    | HomeAny                                 // claim prev
    | GoHome                                  // answer prev
    | AnyIn(mask: set<int>)                   // answer any CPU of the mask

  function SyncPart(k: Call): seq<Attempt> {
    if k.sync.Some? then [SyncHome, SyncWaker] else []
  }

  function HomePart(k: Call): seq<Attempt> {
    [LookCores, HomeCore, PickIn(k.mask, true), HomeAny, PickIn(k.mask, false)]
  }

  function GreedyPart(k: Call): seq<Attempt> {
    if k.greedy != {} then [PickIn(k.greedy, true), PickIn(k.greedy, false)] else []
  }

  function LastPart(k: Call): seq<Attempt> {
    if k.prev in k.mask then [GoHome] else [PickIn(k.mask, false), AnyIn(k.mask)]
  }

  /** The cascade of `rusty_select_cpu`, for a task that is not pinned. */
  function Cascade(k: Call): seq<Attempt> {
    SyncPart(k) + (HomePart(k) + (GreedyPart(k) + LastPart(k)))
  }

  /** Where a call is in `pick_idle_cpu` or in a direct `test_and_clear_cpu_idle`. */
  datatype Pc =
    | Out                    // between two attempts, or at the end
    | Retry                  // at the label, about to look at the SMT mask, if there is one
    | LookCpu                // about to look at the CPU mask
    | Found(c: int)          // holds a candidate, about to test the SMT mask
    | Clear(c: int)          // about to remove the candidate's siblings from the SMT mask
    | ClearOne(c: int)       // about to remove the candidate alone
    | Claim(c: int)          // about to test and clear the candidate's bit of the CPU mask

  /** One run of the retry loop: its mask, its failed tries, and the idle bits present at its start and set since. */
  datatype Loop = Loop(allowed: set<int>, coreOnly: bool, loop: bool, tries: nat, start: nat, since: nat, again: bool)

  /**
   A caller: its call, what it has yet to attempt, whether it has found its domain mask without an
   idle CPU, its answer, and the CPUs this call has claimed.
   */
  datatype Sel = Sel(pc: Pc, it: Loop, call: Call, todo: seq<Attempt>, cores: bool, noneIdle: bool,
                     ret: Option<int>, mine: seq<int>)

  datatype State = State(smtActive: bool, siblings: map<int, set<int>>, cpu: set<int>, smt: set<int>, sels: seq<Sel>,
                         claimed: multiset<int>, timesSet: multiset<int>)

  datatype Event =
    | Begin(i: nat, call: Call)
    | Op(i: nat, pick: int)                   // the caller's next step; `pick` is its free choice
    | EnterIdle(c: int)
    | ExitIdle(c: int)                        // also core entry and core exit

  function Bits(s: State): set<int> {
    s.cpu + s.smt
  }

  function Siblings(s: State, c: int): set<int> {
    {c} + if c in s.siblings then s.siblings[c] else {}
  }

  function Put(s: State, i: nat, x: Sel): State
    requires i < |s.sels|
  {
    s.(sels := s.sels[i := x])
  }

  function IdleMask(s: State): set<int> {
    if s.smtActive then s.smt else s.cpu
  }

  /** The mask the next step takes its free choice from. */
  function Choices(s: State, x: Sel): set<int> {
    match x.pc
    case Retry => if s.smtActive then s.smt * x.it.allowed else {}
    case LookCpu => s.cpu * x.it.allowed
    case Out => if x.todo != [] && x.todo[0].AnyIn? then x.todo[0].mask else {}
    case _ => {}
  }

  /** The next step has something to choose from. */
  predicate Chooses(s: State, x: Sel) {
    match x.pc
    case Retry => s.smtActive && !(s.smt !! x.it.allowed)
    case LookCpu => !(s.cpu !! x.it.allowed)
    case Out => x.todo != [] && x.todo[0].AnyIn? && x.todo[0].mask != {}
    case _ => false
  }

  predicate Enabled(s: State, e: Event) {
    match e
    case Begin(i, _) => i < |s.sels| && s.sels[i].ret.Some?
    case Op(i, pick) =>
      i < |s.sels| && s.sels[i].ret.None? && (Chooses(s, s.sels[i]) ==> pick in Choices(s, s.sels[i]))
    case EnterIdle(c) => true
    case ExitIdle(c) => true
  }

  function Started(k: Call): Sel {
    var it := Loop({}, false, false, 0, 0, 0, false);
    if k.pinned then Sel(Out, it, k, [], false, false, Some(k.prev), [])
    else Sel(Out, it, k, Cascade(k), false, false, None, [])
  }

  function TryOne(x: Sel, c: int): Sel {
    x.(pc := Found(c), it := Loop({}, false, false, 0, 0, 0, false))
  }

  function Answer(x: Sel, cpu: int): Sel {
    x.(pc := Out, todo := [], ret := Some(cpu))
  }

  /** The caller goes into its next attempt. */
  function Attempted(s: State, x: Sel, pick: int): Sel
    requires x.todo != []
  {
    var y := x.(todo := x.todo[1..]);
    var k := x.call;
    match x.todo[0]
    case SyncHome => if k.sync.Some? && k.prev in k.sync.value.near then TryOne(y, k.prev) else y
    case SyncWaker =>
      if k.sync.Some? && k.sync.value.willing && !(k.sync.value.near !! IdleMask(s)) then Answer(y, k.sync.value.waker)
      else y
    case LookCores => y.(cores := IdleMask(s) != {})
    case HomeCore => if k.prev in k.mask && k.prev in IdleMask(s) then TryOne(y, k.prev) else y
    case PickIn(m, core) =>
      if core && !x.cores then y
      else y.(pc := Retry, it := Loop(m, core, true, 0, |Bits(s)|, 0, false))
    case HomeAny => if k.prev in k.mask then TryOne(y, k.prev) else y
    case GoHome => Answer(y, k.prev)
    case AnyIn(m) => Answer(y, if m == {} then RustyPolicy.EBUSY else pick)
  }

  function OpStep(s: State, i: nat, pick: int): State
    requires i < |s.sels|
  {
    var x := s.sels[i];
    match x.pc
    case Out => if x.todo == [] then s else Put(s, i, Attempted(s, x, pick))
    case Retry =>
      if s.smtActive && !(s.smt !! x.it.allowed) then Put(s, i, x.(pc := Found(pick), it := x.it.(again := false)))
      else if s.smtActive && x.it.coreOnly then Put(s, i, x.(pc := Out))
      else Put(s, i, x.(pc := LookCpu))
    case LookCpu =>
      if !(s.cpu !! x.it.allowed) then Put(s, i, x.(pc := Found(pick), it := x.it.(again := false)))
      else Put(s, i, x.(pc := Out, noneIdle := x.noneIdle || x.it.allowed == x.call.mask))
    case Found(c) =>
      if s.smtActive && !(s.smt !! Siblings(s, c)) then Put(s, i, x.(pc := Clear(c)))
      else if s.smtActive && c in s.smt then Put(s, i, x.(pc := ClearOne(c)))
      else Put(s, i, x.(pc := Claim(c)))
    case Clear(c) => Put(s.(smt := s.smt - Siblings(s, c)), i, x.(pc := Claim(c)))
    case ClearOne(c) => Put(s.(smt := s.smt - {c}), i, x.(pc := Claim(c)))
    case Claim(c) =>
      if c in s.cpu then
        Put(s.(cpu := s.cpu - {c}, claimed := s.claimed + multiset{c}), i, Answer(x.(mine := x.mine + [c]), c))
      else if x.it.loop then Put(s, i, x.(pc := Retry, it := x.it.(tries := x.it.tries + 1)))
      else Put(s, i, x.(pc := Out))
  }

  /** The CPU a selector is trying. */
  function Candidate(pc: Pc): Option<int> {
    match pc
    case Found(c) => Some(c)
    case Clear(c) => Some(c)
    case ClearOne(c) => Some(c)
    case Claim(c) => Some(c)
    case _ => None
  }

  /** What a bit being set means for a selector's account. */
  function Noted(x: Sel, c: int): Sel {
    x.(it := x.it.(since := x.it.since + 1, again := x.it.again || Candidate(x.pc) == Some(c)))
  }

  function Step(s: State, e: Event): State
    requires Enabled(s, e)
  {
    match e
    case Begin(i, call) => Put(s, i, Started(call))
    case Op(i, pick) => OpStep(s, i, pick)
    case EnterIdle(c) =>
      var sels := seq(|s.sels|, j requires 0 <= j < |s.sels| => Noted(s.sels[j], c));
      if s.smtActive then s.(smt := s.smt + {c}, sels := sels)
      else s.(cpu := s.cpu + {c}, sels := sels, timesSet := s.timesSet + multiset{c})
    case ExitIdle(c) => if s.smtActive then s.(smt := s.smt - {c}) else s.(cpu := s.cpu - {c})
  }

  /** A caller before its first call. */
  const IDLE: Sel :=
    Sel(Out, Loop({}, false, false, 0, 0, 0, false), Call(0, {}, true, None, {}), [], false, false, Some(0), [])

  /** All CPUs idle, as init_sched leaves the masks; no caller at work. */
  function Boot(smtActive: bool, siblings: map<int, set<int>>, cpus: set<int>, n: nat): State {
    State(smtActive, siblings, cpus, if smtActive then cpus else {}, seq(n, _ => IDLE),
          multiset{}, multiset(cpus))
  }

  ghost predicate Run(s: State, es: seq<Event>)
    decreases |es|
  {
    es != [] ==> Enabled(s, es[0]) && Run(Step(s, es[0]), es[1..])
  }

  ghost function Exec(s: State, es: seq<Event>): State
    requires Run(s, es)
    decreases |es|
  {
    if es == [] then s else Exec(Step(s, es[0]), es[1..])
  }

  // ---------------------------------------------------------------- exclusive claims

  /** Every claim of a CPU, and its bit if it is still set, is backed by a time the bit was set. */
  ghost predicate Backed(s: State) {
    forall c :: s.claimed[c] + (if c in s.cpu then 1 else 0) <= s.timesSet[c]
  }

  lemma BackedStep(s: State, e: Event)
    requires Backed(s) && Enabled(s, e)
    ensures Backed(Step(s, e))
    ensures s.smtActive ==> Step(s, e).smtActive && Step(s, e).cpu <= s.cpu && Step(s, e).timesSet == s.timesSet
  {
  }

  /** A CPU is claimed at most once per time its idle bit is set, whoever races for it. */
  lemma {:induction false} ClaimsExclusive(s: State, es: seq<Event>)
    requires Backed(s) && Run(s, es)
    ensures Backed(Exec(s, es))
    decreases |es|
  {
    if es != [] {
      BackedStep(s, es[0]);
      ClaimsExclusive(Step(s, es[0]), es[1..]);
    }
  }

  lemma {:induction false} SmtNeverSets(s: State, es: seq<Event>)
    requires s.smtActive && Backed(s) && Run(s, es)
    ensures Exec(s, es).cpu <= s.cpu && Exec(s, es).timesSet == s.timesSet
    decreases |es|
  {
    if es != [] {
      BackedStep(s, es[0]);
      SmtNeverSets(Step(s, es[0]), es[1..]);
    }
  }

  /**
   With SMT, idle entry sets the SMT mask only, so the CPU mask never grows: over the whole
   life of the module each CPU is handed out as idle at most once.
   */
  lemma SmtClaimsOnce(siblings: map<int, set<int>>, cpus: set<int>, n: nat, es: seq<Event>, c: int)
    requires Run(Boot(true, siblings, cpus, n), es)
    ensures Exec(Boot(true, siblings, cpus, n), es).claimed[c] <= 1
    ensures Exec(Boot(true, siblings, cpus, n), es).claimed[c] == 1 ==>
            c !in Exec(Boot(true, siblings, cpus, n), es).cpu
  {
    var s := Boot(true, siblings, cpus, n);
    ClaimsExclusive(s, es);
    SmtNeverSets(s, es);
    assert s.timesSet[c] <= 1;
  }

  // ---------------------------------------------------------------- bounded retries

  /** Each failed try uses up an idle bit: one present at the start, or one set since. */
  ghost predicate Account(s: State, it: Loop, candidate: Option<int>) {
    match candidate
    case None => it.tries + |Bits(s)| <= it.start + it.since
    case Some(c) => it.tries + |Bits(s) - {c}| + 1 + (if it.again then 1 else 0) <= it.start + it.since
  }

  ghost predicate Paid(s: State, x: Sel) {
    x.it.loop && x.pc != Out ==>
      && Account(s, x.it, Candidate(x.pc))
      && (x.pc.Claim? && x.pc.c in s.smt ==> x.it.again)
  }

  ghost predicate AllPaid(s: State) {
    && (!s.smtActive ==> s.smt == {})
    && forall i :: 0 <= i < |s.sels| ==> Paid(s, s.sels[i])
  }

  lemma CardLe(a: set<int>, b: set<int>)
    requires a <= b
    ensures |a| <= |b|
  {
    assert b == a + (b - a);
  }

  lemma CardLess(a: set<int>, c: int)
    ensures |a| == |a - {c}| + if c in a then 1 else 0
  {
    if c in a {
      assert a == (a - {c}) + {c};
    } else {
      assert a == a - {c};
    }
  }

  /** Fewer idle bits, an untouched account: still paid. */
  lemma PaidShrink(s: State, n: State, x: Sel)
    requires Paid(s, x) && Bits(n) <= Bits(s) && n.smt <= s.smt
    ensures Paid(n, x)
  {
    CardLe(Bits(n), Bits(s));
    if Candidate(x.pc).Some? {
      CardLe(Bits(n) - {Candidate(x.pc).value}, Bits(s) - {Candidate(x.pc).value});
    }
  }

  lemma PaidSet(s: State, n: State, x: Sel, c: int)
    requires Paid(s, x) && Bits(n) == Bits(s) + {c} && s.smt <= n.smt <= s.smt + {c}
    ensures Paid(n, Noted(x, c))
  {
    assert |Bits(s) + {c}| <= |Bits(s)| + 1;
    match Candidate(x.pc)
    case None =>
    case Some(d) =>
      if d == c {
        assert Bits(n) - {d} == Bits(s) - {d};
      } else {
        assert Bits(n) - {d} == (Bits(s) - {d}) + {c};
      }
  }

  // The selector's own operations.

  lemma PaidPick(s: State, x: Sel, pick: int)
    requires Paid(s, x) && x.pc in {Retry, LookCpu} && pick in Bits(s)
    ensures Paid(s, x.(pc := Found(pick), it := x.it.(again := false)))
  {
    CardLess(Bits(s), pick);
  }

  lemma NotListed(s: State, c: int)
    requires (s.smtActive ==> s.smt !! Siblings(s, c)) && (!s.smtActive ==> s.smt == {})
    ensures c !in s.smt
  {
    assert c in Siblings(s, c);
  }

  lemma PaidTest(s: State, x: Sel)
    requires Paid(s, x) && x.pc.Found?
    ensures Paid(s, x.(pc := Clear(x.pc.c))) && Paid(s, x.(pc := ClearOne(x.pc.c)))
    ensures x.pc.c !in s.smt ==> Paid(s, x.(pc := Claim(x.pc.c)))
  {
  }

  lemma AccountShrinks(s: State, n: State, it: Loop, c: int)
    requires Account(s, it, Some(c)) && Bits(n) <= Bits(s)
    ensures Account(n, it, Some(c))
  {
    CardLe(Bits(n) - {c}, Bits(s) - {c});
  }

  lemma PaidClear(s: State, n: State, x: Sel, gone: set<int>)
    requires Paid(s, x) && (x.pc.Clear? || x.pc.ClearOne?) && x.pc.c in gone
    requires n.cpu == s.cpu && n.smt == s.smt - gone
    ensures Paid(n, x.(pc := Claim(x.pc.c)))
  {
    if x.it.loop {
      AccountShrinks(s, n, x.it, x.pc.c);
    }
  }

  lemma PaidFail(s: State, x: Sel)
    requires Paid(s, x) && x.pc.Claim? && x.pc.c !in s.cpu
    ensures Paid(s, x.(pc := Retry, it := x.it.(tries := x.it.tries + 1)))
  {
    CardLess(Bits(s), x.pc.c);
  }

  /** The selector `i` still has its account in order after its next operation. */
  ghost predicate KeepsPaid(s: State, i: nat, pick: int)
    requires i < |s.sels|
  {
    var n := OpStep(s, i, pick);
    |n.sels| == |s.sels| && Paid(n, n.sels[i])
  }

  lemma PaidLook(s: State, i: nat, pick: int)
    requires i < |s.sels| && Paid(s, s.sels[i]) && Enabled(s, Op(i, pick)) && s.sels[i].pc in {Retry, LookCpu}
    ensures KeepsPaid(s, i, pick)
  {
    if pick in Bits(s) {
      PaidPick(s, s.sels[i], pick);
    }
  }

  lemma PaidFound(s: State, i: nat, pick: int)
    requires i < |s.sels| && Paid(s, s.sels[i]) && s.sels[i].pc.Found? && (!s.smtActive ==> s.smt == {})
    ensures KeepsPaid(s, i, pick)
  {
    var x, c := s.sels[i], s.sels[i].pc.c;
    PaidTest(s, x);
    if !s.smtActive || s.smt !! Siblings(s, c) {
      NotListed(s, c);
    }
    SamePaid(s, OpStep(s, i, pick), OpStep(s, i, pick).sels[i]);
  }

  lemma PaidClaim(s: State, i: nat, pick: int)
    requires i < |s.sels| && Paid(s, s.sels[i]) && s.sels[i].pc.Claim?
    ensures KeepsPaid(s, i, pick)
  {
    if s.sels[i].pc.c !in s.cpu {
      PaidFail(s, s.sels[i]);
    }
  }

  lemma AttemptedPaid(s: State, x: Sel, pick: int)
    requires x.pc.Out? && x.todo != []
    ensures Paid(s, Attempted(s, x, pick))
  {
    match x.todo[0]
    case PickIn(_, _) =>
    case _ => assert !Attempted(s, x, pick).it.loop || Attempted(s, x, pick).pc == Out;
  }

  lemma PaidAttempt(s: State, i: nat, pick: int)
    requires i < |s.sels| && s.sels[i].pc.Out?
    ensures KeepsPaid(s, i, pick)
  {
    if s.sels[i].todo != [] {
      AttemptedPaid(s, s.sels[i], pick);
      SamePaid(s, OpStep(s, i, pick), Attempted(s, s.sels[i], pick));
    }
  }

  lemma SamePaid(s: State, n: State, x: Sel)
    requires Paid(s, x) && n.cpu == s.cpu && n.smt == s.smt
    ensures Paid(n, x)
  {
  }

  lemma PaidOp(s: State, i: nat, pick: int)
    requires AllPaid(s) && Enabled(s, Op(i, pick))
    ensures KeepsPaid(s, i, pick)
  {
    var x := s.sels[i];
    match x.pc
    case Out => PaidAttempt(s, i, pick);
    case Retry => PaidLook(s, i, pick);
    case LookCpu => PaidLook(s, i, pick);
    case Found(c) => PaidFound(s, i, pick);
    case Clear(c) => PaidClear(s, OpStep(s, i, pick), x, Siblings(s, c));
    case ClearOne(c) => PaidClear(s, OpStep(s, i, pick), x, {c});
    case Claim(c) => PaidClaim(s, i, pick);
  }

  lemma OthersPaid(s: State, n: State, i: nat)
    requires AllPaid(s) && i < |s.sels| == |n.sels| && Bits(n) <= Bits(s) && n.smt <= s.smt &&
             n.smtActive == s.smtActive
    requires forall j :: 0 <= j < |s.sels| && j != i ==> n.sels[j] == s.sels[j]
    requires Paid(n, n.sels[i])
    ensures AllPaid(n)
  {
    forall j | 0 <= j < |n.sels| ensures Paid(n, n.sels[j]) {
      if j != i {
        PaidShrink(s, n, s.sels[j]);
      }
    }
  }

  lemma OpShrinks(s: State, i: nat, pick: int)
    requires i < |s.sels|
    ensures var n := OpStep(s, i, pick);
            && |n.sels| == |s.sels| && Bits(n) <= Bits(s) && n.smt <= s.smt && n.smtActive == s.smtActive
            && forall j :: 0 <= j < |s.sels| && j != i ==> n.sels[j] == s.sels[j]
  {
  }

  lemma PaidStep(s: State, e: Event)
    requires AllPaid(s) && Enabled(s, e)
    ensures AllPaid(Step(s, e))
  {
    match e
    case Begin(i, _) => OthersPaid(s, Step(s, e), i);
    case Op(i, pick) =>
      PaidOp(s, i, pick);
      OpShrinks(s, i, pick);
      OthersPaid(s, Step(s, e), i);
    case EnterIdle(c) => PaidEnterIdle(s, c);
    case ExitIdle(c) => PaidExitIdle(s, c);
  }

  lemma PaidEnterIdle(s: State, c: int)
    requires AllPaid(s)
    ensures AllPaid(Step(s, EnterIdle(c)))
  {
    var n := Step(s, EnterIdle(c));
    forall j | 0 <= j < |n.sels| ensures Paid(n, n.sels[j]) {
      assert Paid(s, s.sels[j]);
      PaidSet(s, n, s.sels[j], c);
    }
  }

  lemma PaidExitIdle(s: State, c: int)
    requires AllPaid(s)
    ensures AllPaid(Step(s, ExitIdle(c)))
  {
    var n := Step(s, ExitIdle(c));
    forall j | 0 <= j < |n.sels| ensures Paid(n, n.sels[j]) {
      PaidShrink(s, n, s.sels[j]);
    }
  }

  lemma {:induction false} PaidRun(s: State, es: seq<Event>)
    requires AllPaid(s) && Run(s, es)
    ensures AllPaid(Exec(s, es))
    decreases |es|
  {
    if es != [] {
      PaidStep(s, es[0]);
      PaidRun(Step(s, es[0]), es[1..]);
    }
  }

  /** The failed tries of one pick_idle_cpu never exceed the idle bits it found plus the bits set since. */
  lemma RetriesBounded(smtActive: bool, siblings: map<int, set<int>>, cpus: set<int>, n: nat, es: seq<Event>, i: nat)
    requires Run(Boot(smtActive, siblings, cpus, n), es)
    requires i < |Exec(Boot(smtActive, siblings, cpus, n), es).sels|
    ensures var x := Exec(Boot(smtActive, siblings, cpus, n), es).sels[i];
            x.it.loop && x.pc != Out ==> x.it.tries <= x.it.start + x.it.since
  {
    PaidRun(Boot(smtActive, siblings, cpus, n), es);
    assert Paid(Exec(Boot(smtActive, siblings, cpus, n), es), Exec(Boot(smtActive, siblings, cpus, n), es).sels[i]);
  }

  // ---------------------------------------------------------------- one call, one claim, one answer

  /** The CPUs a call may answer with. */
  function Open(k: Call): set<int> {
    {k.prev} + k.mask + k.greedy + if k.sync.Some? then {k.sync.value.waker} else {}
  }

  /** The CPU lies in a mask the call may pick from, or is its previous CPU. */
  predicate Near(k: Call, c: int) {
    c == k.prev || c in k.mask || c in k.greedy
  }

  predicate AttemptOk(k: Call, a: Attempt) {
    match a
    case PickIn(m, _) => m == k.mask || m == k.greedy
    case AnyIn(m) => m == k.mask
    case _ => true
  }

  predicate Last(a: Attempt) {
    a.GoHome? || a.AnyIn?
  }

  /** Attempts that may fail, on the call's own masks. */
  ghost predicate MayFail(k: Call, todo: seq<Attempt>) {
    forall a <- todo :: !Last(a) && AttemptOk(k, a)
  }

  /** What is left to attempt: some that may fail, then one that always answers. */
  ghost predicate TodoOk(k: Call, todo: seq<Attempt>) {
    && todo != [] && MayFail(k, todo[..|todo| - 1])
    && Last(todo[|todo| - 1]) && AttemptOk(k, todo[|todo| - 1])
  }

  lemma TodoJoin(k: Call, a: seq<Attempt>, b: seq<Attempt>)
    requires MayFail(k, a) && TodoOk(k, b)
    ensures TodoOk(k, a + b)
  {
    assert (a + b)[..|a + b| - 1] == a + b[..|b| - 1];
  }

  lemma TodoNext(k: Call, todo: seq<Attempt>)
    requires TodoOk(k, todo)
    ensures AttemptOk(k, todo[0]) && (Last(todo[0]) <==> |todo| == 1)
    ensures |todo| > 1 ==> TodoOk(k, todo[1..])
  {
    if |todo| > 1 {
      var front := todo[..|todo| - 1];
      assert front[0] in front;
      assert todo[1..][..|todo| - 2] == front[1..];
    }
  }

  /**
   A call under way has claimed nothing and knows how to go on; a call that is over has an
   answer, which is the one CPU it claimed, if it claimed any.
   */
  ghost predicate CallOk(x: Sel) {
    if x.ret.None? then UnderWay(x) else Over(x)
  }

  ghost predicate UnderWay(x: Sel) {
    && x.ret.None? && x.mine == [] && TodoOk(x.call, x.todo)
    && (x.pc.Retry? || x.pc.LookCpu? ==> x.it.loop)
    && (x.it.loop && x.pc != Out ==> x.it.allowed == x.call.mask || x.it.allowed == x.call.greedy)
    && (Candidate(x.pc).Some? ==> Near(x.call, Candidate(x.pc).value))
  }

  ghost predicate Over(x: Sel) {
    && x.ret.Some? && x.pc == Out && x.todo == []
    && (x.mine == [] || x.mine == [x.ret.value])
    && Answers(x.call, x.ret.value)
  }

  predicate Answers(k: Call, cpu: int) {
    cpu in Open(k) || (cpu == RustyPolicy.EBUSY && k.mask == {})
  }

  ghost predicate CallsOk(s: State) {
    forall i :: 0 <= i < |s.sels| ==> CallOk(s.sels[i])
  }

  lemma PartsOk(k: Call)
    ensures MayFail(k, SyncPart(k)) && MayFail(k, HomePart(k)) && MayFail(k, GreedyPart(k))
  {
  }

  lemma LastPartOk(k: Call)
    ensures TodoOk(k, LastPart(k))
  {
    var last := LastPart(k);
    assert last[..|last| - 1] == if k.prev in k.mask then [] else [PickIn(k.mask, false)];
  }

  lemma CascadeOk(k: Call)
    ensures TodoOk(k, Cascade(k))
  {
    PartsOk(k);
    LastPartOk(k);
    TodoJoin(k, GreedyPart(k), LastPart(k));
    TodoJoin(k, HomePart(k), GreedyPart(k) + LastPart(k));
    TodoJoin(k, SyncPart(k), HomePart(k) + (GreedyPart(k) + LastPart(k)));
  }

  lemma StartedOk(k: Call)
    ensures CallOk(Started(k))
  {
    CascadeOk(k);
  }

  lemma AttemptedOk(s: State, x: Sel, pick: int)
    requires UnderWay(x) && x.pc == Out
    requires x.todo[0].AnyIn? && x.todo[0].mask != {} ==> pick in x.todo[0].mask
    ensures CallOk(Attempted(s, x, pick))
  {
    TodoNext(x.call, x.todo);
    if Last(x.todo[0]) {
      assert Over(Attempted(s, x, pick));
    } else if Attempted(s, x, pick).ret.Some? {
      assert Over(Attempted(s, x, pick));
    } else {
      assert UnderWay(Attempted(s, x, pick));
    }
  }

  lemma LookOk(s: State, i: nat, pick: int)
    requires i < |s.sels| && UnderWay(s.sels[i]) && Enabled(s, Op(i, pick)) &&
             (s.sels[i].pc.Retry? || s.sels[i].pc.LookCpu?)
    ensures UnderWay(OpStep(s, i, pick).sels[i])
  {
    var x := s.sels[i];
    assert Chooses(s, x) ==> pick in x.it.allowed;
  }

  lemma TestOk(s: State, i: nat, pick: int)
    requires i < |s.sels| && UnderWay(s.sels[i])
    requires s.sels[i].pc.Found? || s.sels[i].pc.Clear? || s.sels[i].pc.ClearOne?
    ensures UnderWay(OpStep(s, i, pick).sels[i])
  {
  }

  lemma ClaimOk(s: State, i: nat, pick: int)
    requires i < |s.sels| && UnderWay(s.sels[i]) && s.sels[i].pc.Claim?
    ensures var y := OpStep(s, i, pick).sels[i]; if s.sels[i].pc.c in s.cpu then Over(y) else UnderWay(y)
  {
  }

  lemma OpOk(s: State, i: nat, pick: int)
    requires CallsOk(s) && Enabled(s, Op(i, pick))
    ensures CallOk(OpStep(s, i, pick).sels[i])
  {
    var x := s.sels[i];
    assert UnderWay(x);
    if x.pc == Out {
      AttemptedOk(s, x, pick);
    } else if x.pc.Claim? {
      ClaimOk(s, i, pick);
    } else if Candidate(x.pc).Some? {
      TestOk(s, i, pick);
    } else {
      LookOk(s, i, pick);
    }
  }

  lemma CallsStep(s: State, e: Event)
    requires CallsOk(s) && Enabled(s, e)
    ensures CallsOk(Step(s, e))
  {
    match e
    case Begin(_, k) => StartedOk(k);
    case Op(i, pick) =>
      OpOk(s, i, pick);
      OpShrinks(s, i, pick);
    case EnterIdle(c) =>
      forall j | 0 <= j < |s.sels| ensures CallOk(Noted(s.sels[j], c)) {
        assert CallOk(s.sels[j]);
      }
    case ExitIdle(_) =>
  }

  lemma {:induction false} CallsRun(s: State, es: seq<Event>)
    requires CallsOk(s) && Run(s, es)
    ensures CallsOk(Exec(s, es))
    decreases |es|
  {
    if es != [] {
      CallsStep(s, es[0]);
      CallsRun(Step(s, es[0]), es[1..]);
    }
  }

  /** A CPU is claimed by somebody's call, and goes on record with that call. */
  lemma ClaimsAreSomeones(s: State, e: Event)
    requires Enabled(s, e)
    ensures var n := Step(s, e);
            || n.claimed == s.claimed
            || (&& e.Op? && e.i < |n.sels| == |s.sels| && s.sels[e.i].pc.Claim?
                && var c := s.sels[e.i].pc.c;
                   && c in s.cpu && n.cpu == s.cpu - {c} && n.claimed == s.claimed + multiset{c}
                   && n.sels[e.i].mine == s.sels[e.i].mine + [c] && n.sels[e.i].ret == Some(c))
  {
  }

  /**
   Who touches which mask: an idle entry or exit the SMT mask if there is one, the CPU mask
   otherwise; a call takes bits away only, from the SMT mask those of one CPU and its siblings.
   */
  lemma MasksAfter(s: State, e: Event)
    requires Enabled(s, e)
    ensures var n := Step(s, e);
            && (e.EnterIdle? ==> if s.smtActive then n.smt == s.smt + {e.c} && n.cpu == s.cpu
                                 else n.cpu == s.cpu + {e.c} && n.smt == s.smt)
            && (e.ExitIdle? ==> if s.smtActive then n.smt == s.smt - {e.c} && n.cpu == s.cpu
                                else n.cpu == s.cpu - {e.c} && n.smt == s.smt)
            && (e.Begin? ==> n.cpu == s.cpu && n.smt == s.smt)
            && (e.Op? ==> n.cpu <= s.cpu && n.smt <= s.smt && |n.sels| == |s.sels|
                          && (n.smt != s.smt ==> exists c :: Candidate(s.sels[e.i].pc) == Some(c) &&
                                                             s.smt - n.smt <= Siblings(s, c)))
  {
    if e.Op? && Step(s, e).smt != s.smt {
      assert Candidate(s.sels[e.i].pc).Some?;
      assert s.smt - Step(s, e).smt <= Siblings(s, Candidate(s.sels[e.i].pc).value);
    }
  }

  /**
   Whatever the interleaving, one call claims at most one CPU, and that is the one it returns;
   what it returns is its task's previous CPU, its waker's, or one of the masks it was given.
   */
  lemma OneCallOneClaim(smtActive: bool, siblings: map<int, set<int>>, cpus: set<int>, n: nat, es: seq<Event>, i: nat)
    requires Run(Boot(smtActive, siblings, cpus, n), es)
    requires i < |Exec(Boot(smtActive, siblings, cpus, n), es).sels|
    ensures var x := Exec(Boot(smtActive, siblings, cpus, n), es).sels[i];
            && |x.mine| <= 1
            && (x.mine != [] ==> x.ret == Some(x.mine[0]))
            && (x.ret.Some? ==> Answers(x.call, x.ret.value))
  {
    CallsRun(Boot(smtActive, siblings, cpus, n), es);
    assert CallOk(Exec(Boot(smtActive, siblings, cpus, n), es).sels[i]);
  }

  // ---------------------------------------------------------------- when a call may end without a claim

  /** What is left once the domain mask has been searched for any idle CPU. */
  function Tail(k: Call): seq<Attempt> {
    GreedyPart(k) + LastPart(k)
  }

  /** The call is at the search of its domain mask for any idle CPU. */
  predicate SearchesDomain(x: Sel) {
    x.pc != Out && x.it.loop && !x.it.coreOnly && x.it.allowed == x.call.mask
  }

  /** A call under way is at some point of its cascade, and past the domain search only if that found nothing. */
  ghost predicate OnTrack(x: Sel) {
    && x.ret.None? && |x.todo| <= |Cascade(x.call)| && x.todo == Cascade(x.call)[|Cascade(x.call)| - |x.todo|..]
    && (!x.noneIdle ==> |x.todo| > |Tail(x.call)| || (|x.todo| == |Tail(x.call)| && SearchesDomain(x)))
  }

  /** A call that is over without a claim was pinned, stayed with its waker, or has found no idle CPU in its mask. */
  ghost predicate Excused(x: Sel) {
    x.ret.Some? && (x.mine == [] ==> x.call.pinned || StaysWithWaker(x) || x.noneIdle)
  }

  predicate StaysWithWaker(x: Sel) {
    x.call.sync.Some? && x.ret == Some(x.call.sync.value.waker)
  }

  ghost predicate TrackOk(x: Sel) {
    (UnderWay(x) && OnTrack(x)) || (Over(x) && Excused(x))
  }

  ghost predicate TracksOk(s: State) {
    forall i :: 0 <= i < |s.sels| ==> TrackOk(s.sels[i])
  }

  /** The attempt just before the tail is the search of the domain mask. */
  lemma BeforeTail(k: Call)
    ensures |Cascade(k)| > |Tail(k)| >= 1
    ensures Cascade(k)[|Cascade(k)| - |Tail(k)| - 1] == PickIn(k.mask, false)
  {
    assert Cascade(k) == SyncPart(k) + (HomePart(k) + Tail(k));
  }

  lemma TrackNext(x: Sel)
    requires OnTrack(x) && x.todo != []
    ensures var c := Cascade(x.call); x.todo[1..] == c[|c| - |x.todo[1..]|..]
    ensures |x.todo| == |Tail(x.call)| + 1 ==> x.todo[0] == PickIn(x.call.mask, false)
    ensures 1 <= |Tail(x.call)| < |Cascade(x.call)|
  {
    BeforeTail(x.call);
  }

  /** The attempt gives no answer: the call goes on with the rest. */
  lemma AttemptGoesOn(s: State, x: Sel, pick: int)
    requires x.ret.None? && x.todo != [] && x.pc == Out && Attempted(s, x, pick).ret.None?
    ensures var y := Attempted(s, x, pick);
            && y.call == x.call && y.todo == x.todo[1..] && y.noneIdle == x.noneIdle
            && (x.todo[0] == PickIn(x.call.mask, false) ==> SearchesDomain(y))
  {
  }

  /** The attempt gives an answer without a claim: it stays with the waker, or is the last. */
  lemma AttemptAnswers(s: State, x: Sel, pick: int)
    requires x.ret.None? && x.todo != [] && x.pc == Out && Attempted(s, x, pick).ret.Some?
    ensures var y := Attempted(s, x, pick);
            && y.call == x.call && y.noneIdle == x.noneIdle
            && (StaysWithWaker(y) || Last(x.todo[0]))
  {
  }

  lemma TrackGoesOn(x: Sel, y: Sel)
    requires OnTrack(x) && x.pc == Out && x.todo != [] && y.ret.None?
    requires y.call == x.call && y.todo == x.todo[1..] && y.noneIdle == x.noneIdle
    requires x.todo[0] == PickIn(x.call.mask, false) ==> SearchesDomain(y)
    ensures OnTrack(y)
  {
    TrackNext(x);
  }

  lemma TrackAnswers(x: Sel, y: Sel)
    requires UnderWay(x) && OnTrack(x) && x.pc == Out && y.ret.Some? && y.call == x.call && y.noneIdle == x.noneIdle
    requires StaysWithWaker(y) || Last(x.todo[0])
    ensures Excused(y)
  {
    TodoNext(x.call, x.todo);
    TrackNext(x);
  }

  lemma AttemptedTrack(s: State, x: Sel, pick: int)
    requires UnderWay(x) && OnTrack(x) && x.pc == Out
    ensures var y := Attempted(s, x, pick); if y.ret.Some? then Excused(y) else OnTrack(y)
  {
    if Attempted(s, x, pick).ret.Some? {
      AttemptAnswers(s, x, pick);
      TrackAnswers(x, Attempted(s, x, pick));
    } else {
      AttemptGoesOn(s, x, pick);
      TrackGoesOn(x, Attempted(s, x, pick));
    }
  }

  lemma OpTrack(s: State, i: nat, pick: int)
    requires CallsOk(s) && Enabled(s, Op(i, pick)) && TrackOk(s.sels[i])
    ensures TrackOk(OpStep(s, i, pick).sels[i])
  {
    var x := s.sels[i];
    OpOk(s, i, pick);
    if x.pc == Out {
      AttemptedTrack(s, x, pick);
    } else {
      StepTrack(s, i, pick);
    }
  }

  lemma SameTrack(x: Sel, y: Sel)
    requires OnTrack(x) && y.ret.None? && y.call == x.call && y.todo == x.todo
    requires !y.noneIdle ==> !x.noneIdle && (SearchesDomain(x) ==> SearchesDomain(y))
    ensures OnTrack(y)
  {
  }

  lemma StepStays(s: State, i: nat, pick: int)
    requires i < |s.sels| && s.sels[i].pc != Out && s.sels[i].ret.None?
    ensures var x, y := s.sels[i], OpStep(s, i, pick).sels[i];
            if y.ret.Some? then y.mine != []
            else
              && y.call == x.call && y.todo == x.todo
              && (x.noneIdle ==> y.noneIdle)
  {
  }

  /** A search of the domain mask stops only with a claim, or with the mask found without an idle CPU. */
  lemma SearchGoesOn(s: State, i: nat, pick: int)
    requires i < |s.sels| && s.sels[i].ret.None? && SearchesDomain(s.sels[i])
    ensures var y := OpStep(s, i, pick).sels[i]; y.ret.Some? || y.noneIdle || SearchesDomain(y)
  {
  }

  lemma StepTrack(s: State, i: nat, pick: int)
    requires i < |s.sels| && OnTrack(s.sels[i]) && s.sels[i].pc != Out
    ensures var y := OpStep(s, i, pick).sels[i]; if y.ret.Some? then Excused(y) else OnTrack(y)
  {
    StepStays(s, i, pick);
    if SearchesDomain(s.sels[i]) {
      SearchGoesOn(s, i, pick);
    }
    if OpStep(s, i, pick).sels[i].ret.None? {
      SameTrack(s.sels[i], OpStep(s, i, pick).sels[i]);
    }
  }

  lemma TracksStep(s: State, e: Event)
    requires CallsOk(s) && TracksOk(s) && Enabled(s, e)
    ensures TracksOk(Step(s, e))
  {
    match e
    case Begin(_, k) => StartedTrack(k);
    case Op(i, pick) =>
      OpTrack(s, i, pick);
      OpShrinks(s, i, pick);
    case EnterIdle(c) =>
      forall j | 0 <= j < |s.sels| ensures TrackOk(Noted(s.sels[j], c)) {
        NotedTrack(s.sels[j], c);
      }
    case ExitIdle(_) =>
  }

  lemma NotedTrack(x: Sel, c: int)
    requires TrackOk(x)
    ensures TrackOk(Noted(x, c))
  {
    if x.ret.None? {
      assert UnderWay(Noted(x, c)) && OnTrack(Noted(x, c));
    } else {
      assert Over(Noted(x, c)) && Excused(Noted(x, c));
    }
  }

  lemma StartedTrack(k: Call)
    ensures TrackOk(Started(k))
  {
    StartedOk(k);
    BeforeTail(k);
    if k.pinned {
      assert Excused(Started(k));
    } else {
      assert Cascade(k) == Cascade(k)[0..];
      assert OnTrack(Started(k));
    }
  }

  lemma {:induction false} TracksRun(s: State, es: seq<Event>)
    requires CallsOk(s) && TracksOk(s) && Run(s, es)
    ensures TracksOk(Exec(s, es))
    decreases |es|
  {
    if es != [] {
      CallsStep(s, es[0]);
      TracksStep(s, es[0]);
      TracksRun(Step(s, es[0]), es[1..]);
    }
  }

  /** A caller notes that its domain mask has no idle CPU only at a step at which that is so. */
  lemma NoneIdleIsTrue(s: State, e: Event, i: nat)
    requires Enabled(s, e) && i < |s.sels| == |Step(s, e).sels|
    requires !s.sels[i].noneIdle && Step(s, e).sels[i].noneIdle
    ensures e.Op? && e.i == i && s.cpu !! s.sels[i].call.mask
  {
  }

  /**
   Work conservation under racing: a call that ends without a claim was pinned, stayed with its
   waker, or found its whole domain mask without an idle CPU at one of its steps.
   */
  lemma NoClaimNoneIdle(
      smtActive: bool, siblings: map<int, set<int>>, cpus: set<int>, n: nat, es: seq<Event>, i: nat)
    requires Run(Boot(smtActive, siblings, cpus, n), es)
    requires i < |Exec(Boot(smtActive, siblings, cpus, n), es).sels|
    ensures var x := Exec(Boot(smtActive, siblings, cpus, n), es).sels[i];
            x.ret.Some? && x.mine == [] ==> x.call.pinned || StaysWithWaker(x) || x.noneIdle
  {
    TracksRun(Boot(smtActive, siblings, cpus, n), es);
    assert TrackOk(Exec(Boot(smtActive, siblings, cpus, n), es).sels[i]);
  }
}
