/**
 One call of the racing model that nobody races with: whatever CPUs it happens to pick, it gives
 the answer that the order of preference of `rusty_select_cpu` asks for on the masks it found.
 */
module RustyAlone {
  import opened Queues
  import opened RustyClaims
  import RustyPolicy

  // ---------------------------------------------------------------- the answer asked for

  /** The SMT mask once a sync wakeup has tried the last CPU. */
  function SmtAfterSync(b: State, k: Call): set<int> {
    if b.smtActive && k.sync.Some? && k.prev in k.sync.value.near then b.smt - Siblings(b, k.prev) else b.smt
  }

  /**
   Outside a sync wakeup that decides: home if its whole core is idle; else an idle core, when the
   SMT mask tells the truth about the domain; else home if it is idle at all; else any idle CPU of
   the domain, or of the greedy mask; else home, or anywhere in the domain.
   */
  ghost predicate Searched(b: State, k: Call, cpu: int) {
    var idle, smt := b.cpu, SmtAfterSync(b, k);
    && (k.prev in k.mask && k.prev in idle && (!b.smtActive || k.prev in smt) ==> cpu == k.prev)
    && (b.smtActive && k.mask * smt <= idle && !(k.mask !! smt) ==> cpu in smt)
    && (b.smtActive && k.prev in k.mask && k.prev in idle && k.mask !! smt ==> cpu == k.prev)
    && (!(k.mask !! idle) ==> cpu in k.mask && cpu in idle)
    && (k.mask !! idle && !(k.greedy !! idle) ==> cpu in k.greedy && cpu in idle)
    && (k.mask !! idle && k.greedy !! idle ==>
          if k.prev in k.mask then cpu == k.prev
          else if k.mask == {} then cpu == RustyPolicy.EBUSY
          else cpu in k.mask)
  }

  /** A sync wakeup goes home if that is near its waker and idle. */
  predicate SyncGoesHome(b: State, k: Call) {
    k.sync.Some? && k.prev in k.sync.value.near && k.prev in b.cpu
  }

  /** Or it stays with a willing waker that has an idle CPU near it. */
  predicate SyncStays(b: State, k: Call) {
    && k.sync.Some? && k.sync.value.willing
    && !(k.sync.value.near !! if b.smtActive then SmtAfterSync(b, k) else b.cpu)
  }

  ghost predicate Right(b: State, k: Call, cpu: int) {
    if SyncGoesHome(b, k) then cpu == k.prev
    else if SyncStays(b, k) then cpu == k.sync.value.waker
    else Searched(b, k, cpu)
  }

  /** A call that found the masks of `b` is over: the right answer, and no bit cleared but for the CPU claimed. */
  ghost predicate Settled(b: State, k: Call, s: State, x: Sel) {
    && x.ret.Some? && Right(b, k, x.ret.value)
    && (x.mine == [] ==> s.cpu == b.cpu)
    && (x.mine != [] ==>
          && x.mine == [x.ret.value] && s.cpu == b.cpu - {x.ret.value}
          && (b.smtActive ==> s.smt !! Siblings(b, x.ret.value)))
    && s.smt <= b.smt && (!b.smtActive ==> s.smt == b.smt)
  }

  // ---------------------------------------------------------------- what the call knows on its way

  /**
   The attempts in their order, counted from the end of those of a sync wakeup: two for the sync
   wakeup, five in the domain, two in the greedy mask if there is one, and the last resort.
   */
  predicate IsAttempt(k: Call, h: int, a: Attempt) {
    var g := |GreedyPart(k)|;
    if h < 0 then k.sync.Some? && h >= -2 && a == if h == -2 then SyncHome else SyncWaker
    else if h < 5 then a == [LookCores, HomeCore, PickIn(k.mask, true), HomeAny, PickIn(k.mask, false)][h]
    else if h < 5 + g then a == PickIn(k.greedy, h == 5)
    else a == if k.prev in k.mask then GoHome else if h == 5 + g then PickIn(k.mask, false) else AnyIn(k.mask)
  }

  /** The SMT mask tells the truth about the domain. */
  predicate Truthful(b: State, k: Call) {
    k.mask * SmtAfterSync(b, k) <= b.cpu
  }

  /** What is known once the attempts before the one of number `h` have failed; `cores` is the note on idle cores. */
  ghost predicate Failed(b: State, k: Call, cores: bool, h: int) {
    var idle, smt := b.cpu, SmtAfterSync(b, k);
    && (h >= -1 ==> !SyncGoesHome(b, k))
    && (h >= 0 ==> !SyncStays(b, k))
    && (h >= 1 ==> (cores <==> (if b.smtActive then smt else idle) != {}))
    && (h >= 2 ==> !(k.prev in k.mask && k.prev in idle && (!b.smtActive || k.prev in smt)))
    && (h >= 3 ==> b.smtActive && Truthful(b, k) ==> k.mask !! smt)
    && (h >= 4 ==> !(k.prev in k.mask && k.prev in idle))
    && (h >= 5 ==> k.mask !! idle)
    && (h >= 5 + |GreedyPart(k)| ==> k.greedy !! idle)
  }

  /** What the SMT mask shows then. */
  ghost predicate SmtThen(b: State, k: Call, smt: set<int>, h: int) {
    && smt <= b.smt && (!b.smtActive ==> smt == b.smt)
    && (h == -2 ==> smt == b.smt)
    && (h >= -1 ==> smt <= SmtAfterSync(b, k))
    && (-1 <= h <= 1 ==> smt == SmtAfterSync(b, k))
    && (h < 3 && Truthful(b, k) && h >= 0 ==> smt == SmtAfterSync(b, k))
  }

  /** And what it shows while attempt `h` is under way. */
  ghost predicate SmtAmid(b: State, k: Call, smt: set<int>, pc: Pc, h: int) {
    && smt <= b.smt && (!b.smtActive ==> smt == b.smt)
    && (h == -2 ==> smt == if pc.Claim? then SmtAfterSync(b, k) else b.smt)
    && (h >= 0 ==> smt <= SmtAfterSync(b, k))
    && (0 <= h < 3 && Truthful(b, k) ==> smt == SmtAfterSync(b, k) || (pc.Claim? && pc.c in b.cpu))
    && (pc.Claim? && b.smtActive ==> smt !! Siblings(b, pc.c))
    && (pc.Clear? ==> b.smtActive) && !pc.ClearOne? && pc != Out
  }

  /** A direct claim of the last CPU. */
  predicate TriesHome(k: Call, x: Sel) {
    Candidate(x.pc) == Some(k.prev) && !x.it.loop
  }

  /** A search of a mask; with `core` it looks at the CPU mask only if there is no SMT mask. */
  ghost predicate Searches(b: State, k: Call, x: Sel, mask: set<int>, core: bool) {
    && x.it.loop && x.it.allowed == mask && x.it.coreOnly == core
    && (Candidate(x.pc).Some? ==>
          && Candidate(x.pc).value in mask
          && (core && b.smtActive ==> Candidate(x.pc).value in SmtAfterSync(b, k)))
    && (x.pc.LookCpu? ==> !(core && b.smtActive))
  }

  /** The attempt under way. */
  ghost predicate Trying(b: State, k: Call, x: Sel, a: Attempt) {
    match a
    case SyncHome => TriesHome(k, x) && k.sync.Some? && k.prev in k.sync.value.near
    case HomeCore => TriesHome(k, x) && k.prev in k.mask &&
                     k.prev in (if b.smtActive then SmtAfterSync(b, k) else b.cpu)
    case HomeAny => TriesHome(k, x) && k.prev in k.mask
    case PickIn(m, core) => Searches(b, k, x, m, core)
    case _ => false
  }

  /** The call stands before attempt `h`, or is in the middle of it. */
  ghost predicate Stands(b: State, k: Call, smt: set<int>, x: Sel, h: int) {
    && x.ret.None? && x.call == k && x.mine == [] && Failed(b, k, x.cores, h)
    && x.pc == Out && SmtThen(b, k, smt, h)
  }

  ghost predicate Amid(b: State, k: Call, smt: set<int>, x: Sel, h: int, a: Attempt) {
    && x.ret.None? && x.call == k && x.mine == [] && Failed(b, k, x.cores, h)
    && IsAttempt(k, h, a) && SmtAmid(b, k, smt, x.pc, h) && Trying(b, k, x, a)
  }

  /** The masks are those of `b`, but for the SMT mask. */
  predicate SameCpus(b: State, s: State) {
    s.cpu == b.cpu && s.smtActive == b.smtActive && s.siblings == b.siblings
  }

  // ---------------------------------------------------------------- one step

  /** What comes of attempt `h`: an answer, the attempt under way, or the next one. */
  ghost predicate Outcome(b: State, k: Call, s: State, y: Sel, h: int, a: Attempt) {
    if y.ret.Some? then Settled(b, k, s, y)
    else SameCpus(b, s) && if y.pc == Out then Stands(b, k, s.smt, y, h + 1) else Amid(b, k, s.smt, y, h, a)
  }

  ghost predicate Begins(b: State, k: Call, s: State, x: Sel, h: int, a: Attempt) {
    && SameCpus(b, s) && Stands(b, k, s.smt, x, h) && IsAttempt(k, h, a)
    && x.todo != [] && x.todo[0] == a
  }

  lemma BeginsSync(b: State, k: Call, s: State, x: Sel, pick: int, h: int, a: Attempt)
    requires Begins(b, k, s, x, h, a) && h < 0
    ensures Outcome(b, k, s, Attempted(s, x, pick), h, a)
  {
  }

  lemma BeginsHome(b: State, k: Call, s: State, x: Sel, pick: int, h: int, a: Attempt)
    requires Begins(b, k, s, x, h, a) && 0 <= h < 5
    ensures Outcome(b, k, s, Attempted(s, x, pick), h, a)
  {
  }

  lemma BeginsTail(b: State, k: Call, s: State, x: Sel, pick: int, h: int, a: Attempt)
    requires Begins(b, k, s, x, h, a) && 5 <= h && (a.AnyIn? && a.mask != {} ==> pick in a.mask)
    requires a.AnyIn? ==> h > 5 + |GreedyPart(k)|
    ensures Outcome(b, k, s, Attempted(s, x, pick), h, a)
  {
  }

  lemma Tests(b: State, k: Call, s: State, i: nat, pick: int, h: int, a: Attempt)
    requires i < |s.sels| && SameCpus(b, s) && Amid(b, k, s.smt, s.sels[i], h, a)
    requires s.sels[i].pc.Found? || s.sels[i].pc.Clear?
    ensures Outcome(b, k, OpStep(s, i, pick), OpStep(s, i, pick).sels[i], h, a)
  {
  }

  lemma Looks(b: State, k: Call, s: State, i: nat, pick: int, h: int, a: Attempt)
    requires i < |s.sels| && SameCpus(b, s) && Amid(b, k, s.smt, s.sels[i], h, a) && Enabled(s, Op(i, pick))
    requires s.sels[i].pc.Retry? || s.sels[i].pc.LookCpu?
    ensures Outcome(b, k, OpStep(s, i, pick), OpStep(s, i, pick).sels[i], h, a)
  {
  }

  lemma Claims(b: State, k: Call, s: State, i: nat, pick: int, h: int, a: Attempt)
    requires i < |s.sels| && SameCpus(b, s) && Amid(b, k, s.smt, s.sels[i], h, a) && s.sels[i].pc.Claim?
    ensures Outcome(b, k, OpStep(s, i, pick), OpStep(s, i, pick).sels[i], h, a)
  {
  }

  // ---------------------------------------------------------------- the whole call

  /** The attempts of the cascade, the two of a sync wakeup first if it is one. */
  ghost predicate IsCascade(k: Call, all: seq<Attempt>) {
    forall n: nat :: n < |all| ==> AttemptAt(k, all, n)
  }

  predicate AttemptAt(k: Call, all: seq<Attempt>, n: nat)
    requires n < |all|
  {
    var h := n - |SyncPart(k)|;
    IsAttempt(k, h, all[n]) && (all[n].AnyIn? ==> h > 5 + |GreedyPart(k)|)
  }

  lemma CascadeAt(k: Call, n: nat)
    requires n < |Cascade(k)|
    ensures AttemptAt(k, Cascade(k), n)
  {
  }

  /** The call goes on: `n` attempts are begun, and what they showed is known. */
  ghost predicate Going(b: State, k: Call, all: seq<Attempt>, s: State, x: Sel) {
    var n := |all| - |x.todo|;
    var h := n - |SyncPart(k)|;
    && SameCpus(b, s) && 0 <= n <= |all| && x.todo == all[n..]
    && if x.pc == Out then Stands(b, k, s.smt, x, h)
       else n > 0 && Amid(b, k, s.smt, x, h - 1, all[n - 1])
  }

  ghost predicate Undisturbed(b: State, k: Call, all: seq<Attempt>, s: State, i: nat) {
    i < |s.sels| && if s.sels[i].ret.Some? then Settled(b, k, s, s.sels[i]) else Going(b, k, all, s, s.sels[i])
  }

  lemma BeginStep(b: State, k: Call, s: State, i: nat, pick: int, h: int)
    requires i < |s.sels| && Enabled(s, Op(i, pick)) && s.sels[i].pc == Out && s.sels[i].todo != []
    requires Begins(b, k, s, s.sels[i], h, s.sels[i].todo[0])
    requires s.sels[i].todo[0].AnyIn? ==> h > 5 + |GreedyPart(k)|
    ensures var x, y := s.sels[i], OpStep(s, i, pick).sels[i];
            Outcome(b, k, OpStep(s, i, pick), y, h, x.todo[0]) && (y.ret.None? ==> y.todo == x.todo[1..])
  {
    var x := s.sels[i];
    if h < 0 {
      BeginsSync(b, k, s, x, pick, h, x.todo[0]);
    } else if h < 5 {
      BeginsHome(b, k, s, x, pick, h, x.todo[0]);
    } else {
      BeginsTail(b, k, s, x, pick, h, x.todo[0]);
    }
    if Attempted(s, x, pick).ret.None? {
      AttemptGoesOn(s, x, pick);
    }
  }

  lemma MiddleStep(b: State, k: Call, s: State, i: nat, pick: int, h: int, a: Attempt)
    requires i < |s.sels| && Enabled(s, Op(i, pick)) && SameCpus(b, s) && Amid(b, k, s.smt, s.sels[i], h, a)
    ensures var x, y := s.sels[i], OpStep(s, i, pick).sels[i];
            Outcome(b, k, OpStep(s, i, pick), y, h, a) && (y.ret.None? ==> y.todo == x.todo)
  {
    StepStays(s, i, pick);
    match s.sels[i].pc
    case Claim(_) => Claims(b, k, s, i, pick, h, a);
    case Retry => Looks(b, k, s, i, pick, h, a);
    case LookCpu => Looks(b, k, s, i, pick, h, a);
    case _ => Tests(b, k, s, i, pick, h, a);
  }

  lemma BegunLifts(b: State, k: Call, all: seq<Attempt>, s: State, x: Sel, m: State, y: Sel)
    requires Going(b, k, all, s, x) && x.pc == Out && x.todo != []
    requires Outcome(b, k, m, y, |all| - |x.todo| - |SyncPart(k)|, x.todo[0]) && (y.ret.None? ==> y.todo == x.todo[1..])
    ensures if y.ret.Some? then Settled(b, k, m, y) else Going(b, k, all, m, y)
  {
    var n := |all| - |x.todo|;
    assert all[n..][1..] == all[n + 1..];
  }

  lemma MiddleLifts(b: State, k: Call, all: seq<Attempt>, s: State, x: Sel, m: State, y: Sel)
    requires Going(b, k, all, s, x) && x.pc != Out && (y.ret.None? ==> y.todo == x.todo)
    requires var n := |all| - |x.todo|; Outcome(b, k, m, y, n - 1 - |SyncPart(k)|, all[n - 1])
    ensures if y.ret.Some? then Settled(b, k, m, y) else Going(b, k, all, m, y)
  {
  }

  lemma GoingBegins(b: State, k: Call, all: seq<Attempt>, s: State, x: Sel)
    requires Going(b, k, all, s, x) && IsCascade(k, all) && x.pc == Out && x.todo != []
    ensures var h := |all| - |x.todo| - |SyncPart(k)|;
            Begins(b, k, s, x, h, x.todo[0]) && (x.todo[0].AnyIn? ==> h > 5 + |GreedyPart(k)|)
  {
    assert AttemptAt(k, all, |all| - |x.todo|);
  }

  lemma GoingMiddle(b: State, k: Call, all: seq<Attempt>, s: State, x: Sel)
    requires Going(b, k, all, s, x) && x.pc != Out
    ensures var n := |all| - |x.todo|;
            0 < n <= |all| && SameCpus(b, s) && Amid(b, k, s.smt, x, n - 1 - |SyncPart(k)|, all[n - 1])
  {
  }

  lemma AloneMiddle(b: State, k: Call, all: seq<Attempt>, s: State, i: nat, pick: int)
    requires i < |s.sels| && Going(b, k, all, s, s.sels[i]) && Enabled(s, Op(i, pick)) && s.sels[i].pc != Out
    ensures var m := OpStep(s, i, pick);
            if m.sels[i].ret.Some? then Settled(b, k, m, m.sels[i]) else Going(b, k, all, m, m.sels[i])
  {
    var x, m := s.sels[i], OpStep(s, i, pick);
    var n := |all| - |x.todo|;
    GoingMiddle(b, k, all, s, x);
    MiddleStep(b, k, s, i, pick, n - 1 - |SyncPart(k)|, all[n - 1]);
    MiddleLifts(b, k, all, s, x, m, m.sels[i]);
  }

  lemma AloneBegins(b: State, k: Call, all: seq<Attempt>, s: State, i: nat, pick: int)
    requires i < |s.sels| && Going(b, k, all, s, s.sels[i]) && IsCascade(k, all) && Enabled(s, Op(i, pick))
    requires s.sels[i].pc == Out && s.sels[i].todo != []
    ensures var m := OpStep(s, i, pick);
            if m.sels[i].ret.Some? then Settled(b, k, m, m.sels[i]) else Going(b, k, all, m, m.sels[i])
  {
    var x, m := s.sels[i], OpStep(s, i, pick);
    GoingBegins(b, k, all, s, x);
    BeginStep(b, k, s, i, pick, |all| - |x.todo| - |SyncPart(k)|);
    BegunLifts(b, k, all, s, x, m, m.sels[i]);
  }

  lemma AloneStep(b: State, k: Call, all: seq<Attempt>, s: State, i: nat, pick: int)
    requires Undisturbed(b, k, all, s, i) && IsCascade(k, all) && Enabled(s, Op(i, pick))
    ensures Undisturbed(b, k, all, Step(s, Op(i, pick)), i)
  {
    if s.sels[i].pc != Out {
      AloneMiddle(b, k, all, s, i, pick);
    } else if s.sels[i].todo != [] {
      AloneBegins(b, k, all, s, i, pick);
    }
  }

  lemma {:induction false} AloneRun(b: State, k: Call, all: seq<Attempt>, s: State, i: nat, es: seq<Event>)
    requires Undisturbed(b, k, all, s, i) && IsCascade(k, all)
    requires Run(s, es) && forall e <- es :: e.Op? && e.i == i
    ensures Undisturbed(b, k, all, Exec(s, es), i)
    decreases |es|
  {
    if es != [] {
      assert es[0] in es && es[0] == Op(i, es[0].pick);
      AloneStep(b, k, all, s, i, es[0].pick);
      AloneRun(b, k, all, Step(s, es[0]), i, es[1..]);
    }
  }

  lemma CallBegins(b: State, i: nat, k: Call) returns (all: seq<Attempt>)
    requires Enabled(b, Begin(i, k)) && !k.pinned
    ensures IsCascade(k, all) && Undisturbed(b, k, all, Step(b, Begin(i, k)), i)
  {
    all := Cascade(k);
    forall n: nat | n < |all| ensures AttemptAt(k, all, n) {
      CascadeAt(k, n);
    }
  }

  /**
   A call that nobody races with, from its beginning to its answer: the right one for the masks it
   found, with the bit of a CPU it claimed, and of its core, cleared and no other idle bit.  A
   pinned task stays where it is.
   */
  lemma SelectAlone(b: State, i: nat, k: Call, es: seq<Event>)
    requires Enabled(b, Begin(i, k)) && Run(Step(b, Begin(i, k)), es) && forall e <- es :: e.Op? && e.i == i
    ensures var s := Exec(Step(b, Begin(i, k)), es);
            && i < |s.sels|
            && (k.pinned ==> s.sels[i].ret == Some(k.prev) && s.cpu == b.cpu && s.smt == b.smt)
            && (!k.pinned && s.sels[i].ret.Some? ==> Settled(b, k, s, s.sels[i]))
  {
    if k.pinned {
      PinnedOver(Step(b, Begin(i, k)), i, es);
    } else {
      var all := CallBegins(b, i, k);
      AloneRun(b, k, all, Step(b, Begin(i, k)), i, es);
    }
  }

  lemma PinnedOver(s: State, i: nat, es: seq<Event>)
    requires i < |s.sels| && s.sels[i].ret.Some?
    ensures Run(s, es) && (forall e <- es :: e.Op? && e.i == i) ==> es == []
  {
    if es != [] {
      assert es[0] in es;
    }
  }
}
