/**
 A single-queue FIFO scheduler with a quantum, on its own: the reference that each core of
 fifo_benchs is compared with.  It knows no cores, no CPU numbers and no framework.
 */
module OneCore {
  import opened Queues
  import opened Words
  import opened Ledgers

  // QUANTUM_NS
  const QUANTUM: int := 20_000_000

  /** `charge` and `start` belong to the running task and are 0 when there is none. */
  datatype One = One(queue: seq<Tid>, running: Option<Tid>, asleep: set<Tid>, charge: U64, start: U64,
                     entered: U64, started: U64, ticked: U64)

  datatype Act =
    | Join(t: Tid)
    | Wake(t: Tid)
    | Charge(now: U64)      // a tick
    | GiveUp(now: U64)      // a yield
    | Sleep
    | Die(t: Tid)
    | Pick(now: U64)

  const FRESH: One := One([], None, {}, 0, 0, 0, 0, 0)

  predicate Has(o: One, t: Tid) {
    t in o.queue || o.running == Some(t) || t in o.asleep
  }

  predicate Can(o: One, a: Act) {
    match a
    case Join(t) => !Has(o, t)
    case Wake(t) => t in o.asleep
    case Charge(_) => o.running.Some?
    case GiveUp(_) => o.running.Some?
    case Sleep => o.running.Some?
    case Die(t) => Has(o, t)
    case Pick(_) => o.running.None?
  }

  function Charged(o: One, now: U64): U64 {
    (o.charge + (now - o.start)) % TWO64
  }

  function Append(o: One, t: Tid): One {
    o.(queue := o.queue + [t], entered := Inc(o.entered))
  }

  function Idle(o: One): One {
    o.(running := None, charge := 0, start := 0)
  }

  function Started(o: One, now: U64): One {
    if o.queue == [] then o
    else
      o.(queue := o.queue[1..], running := Some(o.queue[0]), charge := 0, start := now, started := Inc(o.started))
  }

  function Do(o: One, a: Act): One
    requires Can(o, a)
  {
    match a
    case Join(t) => Append(o, t)
    case Wake(t) => Append(o.(asleep := o.asleep - {t}), t)
    case Charge(now) =>
      var p := o.(ticked := Inc(o.ticked));
      if Charged(o, now) >= QUANTUM then Append(Idle(p), o.running.value)
      else p.(charge := Charged(o, now))
    case GiveUp(now) => Started(Append(Idle(o), o.running.value), now)
    case Sleep => Idle(o).(asleep := o.asleep + {o.running.value})
    case Die(t) =>
      if o.running == Some(t) then Idle(o)
      else o.(queue := Without(o.queue, t), asleep := o.asleep - {t})
    case Pick(now) => Started(o, now)
  }

  ghost predicate Acts(o: One, acts: seq<Act>)
    decreases |acts|
  {
    acts != [] ==> Can(o, acts[0]) && Acts(Do(o, acts[0]), acts[1..])
  }

  ghost function After(o: One, acts: seq<Act>): One
    requires Acts(o, acts)
    decreases |acts|
  {
    if acts == [] then o else After(Do(o, acts[0]), acts[1..])
  }

  /** Each task is known once. */
  ghost predicate Sound(o: One) {
    && NoDups(o.queue)
    && (o.running.Some? ==> o.running.value !in o.queue && o.running.value !in o.asleep)
    && forall t <- o.queue :: t !in o.asleep
  }

  lemma DoSound(o: One, a: Act)
    requires Sound(o) && Can(o, a)
    ensures Sound(Do(o, a))
  {
    match a
    case Join(t) => SnocFacts(o.queue, t);
    case Wake(t) => SnocFacts(o.queue, t);
    case Charge(_) => SnocFacts(o.queue, o.running.value);
    case GiveUp(_) =>
      SnocFacts(o.queue, o.running.value);
      TailFacts(o.queue + [o.running.value]);
    case Sleep =>
    case Die(t) => WithoutFacts(o.queue, t);
    case Pick(_) =>
      if o.queue != [] {
        TailFacts(o.queue);
      }
  }

  // ---------------------------------------------------------------- order and counts

  /** What an act adds to the ledger of the queue. */
  function Noted(o: One, a: Act, l: Ledger): Ledger
    requires Can(o, a)
  {
    match a
    case Join(t) => Arrive(l, t)
    case Wake(t) => Arrive(l, t)
    case Charge(now) => if Charged(o, now) >= QUANTUM then Arrive(l, o.running.value) else l
    case GiveUp(_) => Leave(Arrive(l, o.running.value))
    case Sleep => l
    case Die(t) => if t in o.queue then Withdraw(l, IndexOf(o.queue, t)) else l
    case Pick(_) => if o.queue == [] then l else Leave(l)
  }

  ghost function Log(o: One, acts: seq<Act>, l: Ledger): Ledger
    requires Acts(o, acts)
    decreases |acts|
  {
    if acts == [] then l else Log(Do(o, acts[0]), acts[1..], Noted(o, acts[0], l))
  }

  /** The ledger is lawful, and the two counters count its arrivals and its departures in 64-bit words. */
  ghost predicate Kept(o: One, l: Ledger) {
    Lawful(l, o.queue) && |l.arrived| % TWO64 == o.entered && |l.left| % TWO64 == o.started
  }

  lemma KeptStep(o: One, a: Act, l: Ledger)
    requires Sound(o) && Can(o, a) && Kept(o, l)
    ensures Kept(Do(o, a), Noted(o, a, l))
  {
    IncIs(|l.arrived|);
    IncIs(|l.left|);
    match a
    case Join(t) => ArriveLawful(l, o.queue, t);
    case Wake(t) => ArriveLawful(l, o.queue, t);
    case Charge(_) => ArriveLawful(l, o.queue, o.running.value);
    case GiveUp(_) =>
      ArriveLawful(l, o.queue, o.running.value);
      LeaveLawful(Arrive(l, o.running.value), o.queue + [o.running.value]);
    case Sleep =>
    case Die(t) =>
      if t in o.queue {
        WithdrawLawful(l, o.queue, IndexOf(o.queue, t));
        WithoutAt(o.queue, IndexOf(o.queue, t));
      } else {
        WithoutAbsent(o.queue, t);
      }
    case Pick(_) =>
      if o.queue != [] {
        LeaveLawful(l, o.queue);
      }
  }

  lemma {:induction false} KeptRun(o: One, acts: seq<Act>, l: Ledger)
    requires Sound(o) && Acts(o, acts) && Kept(o, l)
    ensures Sound(After(o, acts)) && Kept(After(o, acts), Log(o, acts, l))
    decreases |acts|
  {
    if acts != [] {
      KeptStep(o, acts[0], l);
      DoSound(o, acts[0]);
      KeptRun(Do(o, acts[0]), acts[1..], Noted(o, acts[0], l));
    }
  }

  lemma FreshKept(acts: seq<Act>)
    requires Acts(FRESH, acts)
    ensures Kept(After(FRESH, acts), Log(FRESH, acts, EMPTY))
  {
    assert Survivors(0, {}) == [];
    ModNear(0);
    KeptRun(FRESH, acts, EMPTY);
  }

  predicate Removes(o: One, a: Act) {
    a.Die? && a.t in o.queue && o.running != Some(a.t)
  }

  /** Every entry into the queue is accounted for: started, still waiting, or one of the `gone` removed while queued. */
  ghost predicate Balanced(o: One, gone: int) {
    (o.entered - o.started - |o.queue| - gone) % TWO64 == 0
  }

  lemma CountStep(o: One, a: Act, gone: int)
    requires Sound(o) && Can(o, a) && Balanced(o, gone)
    ensures Balanced(Do(o, a), gone + if Removes(o, a) then 1 else 0)
  {
    if a.Die? && a.t in o.queue {
      WithoutAt(o.queue, IndexOf(o.queue, a.t));
    } else if a.Die? {
      WithoutAbsent(o.queue, a.t);
    }
    var n := Do(o, a);
    var x := o.entered - o.started - |o.queue| - gone;
    ModTurn(x, 1);
    ModTurn(x, -1);
    assert n.entered - n.started - |n.queue| - gone - (if Removes(o, a) then 1 else 0) in {x - TWO64, x, x + TWO64};
  }

  ghost function Removals(o: One, acts: seq<Act>): nat
    requires Acts(o, acts)
    decreases |acts|
  {
    if acts == [] then 0 else (if Removes(o, acts[0]) then 1 else 0) + Removals(Do(o, acts[0]), acts[1..])
  }

  lemma {:induction false} CountRun(o: One, acts: seq<Act>, gone: int)
    requires Sound(o) && Acts(o, acts) && Balanced(o, gone)
    ensures Balanced(After(o, acts), gone + Removals(o, acts))
    decreases |acts|
  {
    if acts != [] {
      DoSound(o, acts[0]);
      CountStep(o, acts[0], gone);
      CountRun(Do(o, acts[0]), acts[1..], gone + if Removes(o, acts[0]) then 1 else 0);
    }
  }

  function Charges(acts: seq<Act>): nat {
    if acts == [] then 0 else (if acts[0].Charge? then 1 else 0) + Charges(acts[1..])
  }

  lemma {:induction false} ChargesCounted(o: One, acts: seq<Act>, total: nat)
    requires Acts(o, acts) && o.ticked == total % TWO64
    ensures After(o, acts).ticked == (total + Charges(acts)) % TWO64
    decreases |acts|
  {
    if acts != [] {
      IncIs(total);
      ChargesCounted(Do(o, acts[0]), acts[1..], total + if acts[0].Charge? then 1 else 0);
    }
  }

  /** What the balance says about the word in the counter. */
  lemma BalanceCounts(o: One, gone: int)
    requires Balanced(o, gone)
    ensures o.entered == (o.started + |o.queue| + gone) % TWO64
  {
    WordEquality(o.started + |o.queue| + gone, o.entered);
    ModNear(o.entered);
  }

  /** The counting law, with `gone` tasks removed while queued. */
  predicate Tallied(o: One, gone: nat) {
    o.entered == (o.started + |o.queue| + gone) % TWO64
  }

  /** What the counters of a fresh scheduler hold after any run. */
  lemma Totals(acts: seq<Act>)
    requires Acts(FRESH, acts)
    ensures Tallied(After(FRESH, acts), Removals(FRESH, acts)) && After(FRESH, acts).ticked == Charges(acts) % TWO64
  {
    ModNear(0);
    CountRun(FRESH, acts, 0);
    BalanceCounts(After(FRESH, acts), Removals(FRESH, acts));
    ChargesCounted(FRESH, acts, 0);
  }

  /** What the clock of a fresh scheduler shows after any run. */
  lemma ClockTold(acts: seq<Act>)
    requires Acts(FRESH, acts)
    ensures Timed(After(FRESH, acts), Times(acts, UNSET))
    ensures Ordered(acts, 0) ==> Honest(After(FRESH, acts), Times(acts, UNSET))
  {
    TimedRun(FRESH, acts, UNSET);
    if Ordered(acts, 0) {
      HonestRun(FRESH, acts, UNSET, 0);
    }
  }

  // ---------------------------------------------------------------- the quantum

  const UNSET: Clock := Clock(0, [])

  /** The last start of the running task and the tick times since then, read off the acts. */
  datatype Clock = Clock(start: U64, ticks: seq<U64>)

  function Heard(a: Act, k: Clock): Clock {
    match a
    case Pick(now) => Clock(now, [])
    case GiveUp(now) => Clock(now, [])
    case Charge(now) => Clock(k.start, k.ticks + [now])
    case _ => k
  }

  function Times(acts: seq<Act>, k: Clock): Clock
    decreases |acts|
  {
    if acts == [] then k else Times(acts[1..], Heard(acts[0], k))
  }

  /** What the ticks charge in all: each one the whole time since the start. */
  function Total(k: Clock): int
    decreases |k.ticks|
  {
    if k.ticks == [] then 0
    else Total(Clock(k.start, k.ticks[..|k.ticks| - 1])) + k.ticks[|k.ticks| - 1] - k.start
  }

  ghost predicate Timed(o: One, k: Clock) {
    o.running.Some? ==> o.start == k.start && o.charge == Total(k) % TWO64 && o.charge < QUANTUM
  }

  lemma TimedStep(o: One, a: Act, k: Clock)
    requires Can(o, a) && Timed(o, k)
    ensures Timed(Do(o, a), Heard(a, k))
  {
    if a.Charge? {
      var n := Heard(a, k);
      assert n.ticks[..|n.ticks| - 1] == k.ticks;
      ModAdd(Total(k), a.now - k.start);
    }
  }

  lemma {:induction false} TimedRun(o: One, acts: seq<Act>, k: Clock)
    requires Acts(o, acts) && Timed(o, k)
    ensures Timed(After(o, acts), Times(acts, k))
    decreases |acts|
  {
    if acts != [] {
      TimedStep(o, acts[0], k);
      TimedRun(Do(o, acts[0]), acts[1..], Heard(acts[0], k));
    }
  }

  /** The running task was charged truly, without a wrap. */
  ghost predicate Honest(o: One, k: Clock) {
    o.running.Some? ==>
      && Timed(o, k) && Total(k) == o.charge
      && forall x <- k.ticks :: o.start <= x && x - o.start <= o.charge
  }

  function Reading(a: Act, from: U64): U64 {
    match a
    case Pick(now) => now
    case GiveUp(now) => now
    case Charge(now) => now
    case _ => from
  }

  /** The clock never goes backward and stays a quantum away from its wrap-around. */
  ghost predicate Ordered(acts: seq<Act>, from: U64)
    decreases |acts|
  {
    acts != [] ==> from <= Reading(acts[0], from) < TWO64 - QUANTUM && Ordered(acts[1..], Reading(acts[0], from))
  }

  lemma HonestStep(o: One, a: Act, k: Clock, from: U64)
    requires Can(o, a) && Honest(o, k) && (o.running.Some? ==> o.start <= from)
    requires from <= Reading(a, from) < TWO64 - QUANTUM
    ensures Honest(Do(o, a), Heard(a, k))
    ensures Do(o, a).running.Some? ==> Do(o, a).start <= Reading(a, from)
  {
    TimedStep(o, a, k);
    if a.Charge? {
      var n := Heard(a, k);
      assert n.ticks[..|n.ticks| - 1] == k.ticks;
      ModNear(o.charge + (a.now - o.start));
      assert forall x :: x in n.ticks <==> x in k.ticks || x == a.now;
    }
  }

  lemma {:induction false} HonestRun(o: One, acts: seq<Act>, k: Clock, from: U64)
    requires Acts(o, acts) && Honest(o, k) && (o.running.Some? ==> o.start <= from) && Ordered(acts, from)
    ensures Honest(After(o, acts), Times(acts, k))
    decreases |acts|
  {
    if acts != [] {
      HonestStep(o, acts[0], k, from);
      HonestRun(Do(o, acts[0]), acts[1..], Heard(acts[0], k), Reading(acts[0], from));
    }
  }

  /** Exactly when a tick lets the task run on: the charge stays below the quantum, or it wraps around. */
  lemma TickLetsRun(o: One, now: U64)
    requires o.running.Some? && o.charge < QUANTUM && o.start <= now
    ensures Do(o, Charge(now)).running.Some? <==>
              o.charge + (now - o.start) < QUANTUM || o.charge + (now - o.start) >= TWO64
  {
    var x := o.charge + (now - o.start);
    if x >= TWO64 {
      ModIs(x, 1, x - TWO64);
    } else {
      ModNear(x);
    }
  }

  // ---------------------------------------------------------------- regular ticks

  /** Ticks exactly every `p` nanoseconds from the start on. */
  predicate Regular(k: Clock, p: nat) {
    forall i :: 0 <= i < |k.ticks| ==> k.ticks[i] == k.start + (i + 1) * p
  }

  lemma Triangle(p: int, m: int)
    ensures p * (m - 1) * m + 2 * (m * p) == p * m * (m + 1)
  {
    var x := p * m;
    assert p * (m - 1) * m == x * (m - 1) by {
      assert p * (m - 1) == x - p;
    }
  }

  lemma {:induction false} TotalRegular(k: Clock, p: nat)
    requires Regular(k, p)
    ensures 2 * Total(k) == p * |k.ticks| * (|k.ticks| + 1)
    decreases |k.ticks|
  {
    var m := |k.ticks|;
    if m > 0 {
      TotalRegular(Clock(k.start, k.ticks[..m - 1]), p);
      Triangle(p, m);
    }
  }

  /** With regular ticks the m-th one lets the task run on if and only if p·m·(m+1)/2 is below the quantum. */
  lemma RegularVerdict(o: One, k: Clock, p: nat, now: U64)
    requires o.running.Some? && Honest(o, k) && Regular(k, p)
    requires now == o.start + (|k.ticks| + 1) * p && now < TWO64 - QUANTUM
    ensures var m := |k.ticks| + 1; Do(o, Charge(now)).running.Some? <==> p * m * (m + 1) < 2 * QUANTUM
  {
    var m := |k.ticks| + 1;
    TotalRegular(k, p);
    Triangle(p, m);
    TickLetsRun(o, now);
  }

  /** Started at 0, ticked at 7 ms and 14 ms: the 20 ms quantum is over at 14 ms. */
  lemma EarlyEnd(t: Tid)
    ensures var acts := [Join(t), Pick(0), Charge(7_000_000), Charge(14_000_000)];
            && Acts(FRESH, acts) && Acts(FRESH, acts[..3])
            && After(FRESH, acts).running == None && After(FRESH, acts).queue == [t]
            && After(FRESH, acts[..3]).running == Some(t)
  {
    var acts := [Join(t), Pick(0), Charge(7_000_000), Charge(14_000_000)];
    var o1 := Do(FRESH, acts[0]);
    var o2 := Do(o1, acts[1]);
    ModNear(7_000_000);
    var o3 := Do(o2, acts[2]);
    assert o3.charge == 7_000_000 && o3.running == Some(t);
    ModNear(21_000_000);
    var o4 := Do(o3, acts[3]);
    AfterFour(FRESH, acts, o1, o2, o3, o4);
  }

  lemma AfterFour(o: One, acts: seq<Act>, o1: One, o2: One, o3: One, o4: One)
    requires |acts| == 4 && Can(o, acts[0]) && o1 == Do(o, acts[0]) && Can(o1, acts[1]) && o2 == Do(o1, acts[1])
    requires Can(o2, acts[2]) && o3 == Do(o2, acts[2]) && Can(o3, acts[3]) && o4 == Do(o3, acts[3])
    ensures Acts(o, acts) && After(o, acts) == o4
    ensures Acts(o, acts[..3]) && After(o, acts[..3]) == o3
  {
    AfterFirst(o3, acts[3..]);
    AfterFirst(o2, acts[2..]);
    AfterFirst(o1, acts[1..]);
    AfterFirst(o, acts);
    AfterFirst(o2, acts[2..3]);
    AfterFirst(o1, acts[1..3]);
    AfterFirst(o, acts[..3]);
    assert acts[3..][1..] == [] && acts[2..][1..] == acts[3..] && acts[1..][1..] == acts[2..];
    assert acts[2..3][1..] == [] && acts[1..3][1..] == acts[2..3] && acts[..3][1..] == acts[1..3];
  }

  lemma AfterFirst(o: One, acts: seq<Act>)
    requires acts != [] && Can(o, acts[0])
    ensures Acts(o, acts) <==> Acts(Do(o, acts[0]), acts[1..])
    ensures Acts(o, acts) ==> After(o, acts) == After(Do(o, acts[0]), acts[1..])
  {
  }
}
