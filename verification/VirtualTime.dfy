/**
 The weighted virtual-time scheduler of scx_simple.

 One transition system is run over two arithmetics.  With `wrap == false` clocks are
 unbounded integers; with `wrap == true` they are 64-bit words that wrap around and are
 compared by the sign of their difference, as the C code does.  The integer reading carries
 the fairness argument, `WrapSafeRun` transfers it to the words.
 */
module VirtualTime {
  import opened Queues
  import opened Words

  // SCX_SLICE_DFL, 20 ms in nanoseconds.
  const SLICE: int := 20_000_000

  type Pid = Tid

  datatype Place = Idle | Queued | Running

  datatype State = State(now: int, vt: map<Pid, int>, weight: map<Pid, int>, place: map<Pid, Place>, queue: seq<Pid>)

  /** What the framework asks of the policy.  `slice` is what is left of the time slice. */
  datatype Event =
    | Enable(p: Pid, w: int)           // simple_enable
    | Wake(p: Pid)                     // simple_enqueue of a task that was not runnable
    | Start(p: Pid)                    // leave the shared queue, then simple_running
    | Preempt(p: Pid, slice: int)      // simple_stopping(runnable), then simple_enqueue
    | Block(p: Pid, slice: int)        // simple_stopping(not runnable)
    | Dequeue(p: Pid)                  // a queued task stops being runnable

  // ---------------------------------------------------------------- arithmetic

  function Norm(wrap: bool, x: int): int {
    if wrap then x % TWO64 else x
  }

  /** `time_before`: the signed 64-bit difference is negative. */
  predicate Before(wrap: bool, a: int, b: int) {
    if wrap then (a - b) % TWO64 >= TWO63 else a < b
  }

  function Lead(w: int): int
    requires w > 0
  {
    SLICE * 100 / w
  }

  function Charge(slice: int, w: int): int
    requires w > 0
  {
    (SLICE - slice) * 100 / w
  }

  // ---------------------------------------------------------------- transitions

  /** Insertion into the priority queue: behind every task that does not come later. */
  function Insert(wrap: bool, vt: map<Pid, int>, q: seq<Pid>, p: Pid): seq<Pid>
    requires p in vt && forall x <- q :: x in vt
  {
    if q == [] then [p]
    else if Before(wrap, vt[p], vt[q[0]]) then [p] + q
    else [q[0]] + Insert(wrap, vt, q[1..], p)
  }

  function Clamp(wrap: bool, now: int, v: int): int {
    var floor := Norm(wrap, now - SLICE);
    if Before(wrap, v, floor) then floor else v
  }

  function Enqueue(wrap: bool, s: State, p: Pid): State
    requires Wf(s) && p in s.place
  {
    var vt := s.vt[p := Clamp(wrap, s.now, s.vt[p])];
    s.(vt := vt, place := s.place[p := Queued], queue := Insert(wrap, vt, s.queue, p))
  }

  function Stop(wrap: bool, s: State, p: Pid, slice: int): State
    requires Wf(s) && p in s.place
  {
    s.(vt := s.vt[p := Norm(wrap, s.vt[p] + Charge(slice, s.weight[p]))], place := s.place[p := Idle])
  }

  function Step(wrap: bool, s: State, e: Event): State
    requires Wf(s) && Enabled(s, e)
  {
    match e
    case Enable(p, w) =>
      s.(vt := s.vt[p := s.now], weight := s.weight[p := w], place := s.place[p := Idle])
    case Wake(p) => Enqueue(wrap, s, p)
    case Start(p) =>
      s.(queue := Without(s.queue, p), place := s.place[p := Running],
         now := if Before(wrap, s.now, s.vt[p]) then s.vt[p] else s.now)
    case Preempt(p, slice) => Enqueue(wrap, Stop(wrap, s, p, slice), p)
    case Block(p, slice) => Stop(wrap, s, p, slice)
    case Dequeue(p) => s.(queue := Without(s.queue, p), place := s.place[p := Idle])
  }

  /** What the framework guarantees about the order of its callbacks. */
  predicate Enabled(s: State, e: Event) {
    match e
    case Enable(p, w) => (p in s.place ==> s.place[p] == Idle) && 1 <= w   // perhaps again, perhaps with another weight
    case Wake(p) => p in s.place && s.place[p] == Idle
    case Start(p) => p in s.place && s.place[p] == Queued
    case Preempt(p, slice) => p in s.place && s.place[p] == Running && 0 <= slice <= SLICE
    case Block(p, slice) => p in s.place && s.place[p] == Running && 0 <= slice <= SLICE
    case Dequeue(p) => p in s.place && s.place[p] == Queued
  }

  /** The shared queue is consumed from its front. */
  predicate FrontOnly(s: State, e: Event) {
    e.Start? ==> s.queue != [] && s.queue[0] == e.p
  }

  /** A single CPU starts a task only when it runs none. */
  ghost predicate OneCpu(s: State, e: Event) {
    e.Start? ==> forall q <- s.place :: s.place[q] != Running
  }

  // ---------------------------------------------------------------- invariants

  ghost predicate Wf(s: State) {
    && s.vt.Keys == s.place.Keys == s.weight.Keys
    && (forall p <- s.weight :: s.weight[p] >= 1)
    && (forall p <- s.queue :: p in s.place && s.place[p] == Queued)
    && (forall p <- s.place :: s.place[p] == Queued ==> p in s.queue)
    && NoDups(s.queue)
  }

  ghost predicate Sorted(vt: map<Pid, int>, q: seq<Pid>) {
    && (forall x <- q :: x in vt)
    && forall i, j :: 0 <= i < j < |q| ==> vt[q[i]] <= vt[q[j]]
  }

  /** Holds for any order of picking tasks from the queue, on any number of CPUs. */
  ghost predicate Bounded(s: State) {
    && Wf(s)
    && Sorted(s.vt, s.queue)
    && forall p <- s.place :: s.vt[p] <= s.now + if s.place[p] == Running then 0 else Lead(s.weight[p])
  }

  /** Holds when the queue is consumed from its front, on any number of CPUs. */
  ghost predicate Banded(s: State) {
    && Bounded(s)
    && forall p <- s.queue :: s.now - SLICE <= s.vt[p]
  }

  /** Holds when, moreover, there is one CPU: the running task stays inside the band too. */
  ghost predicate Solo(s: State) {
    && Banded(s)
    && (forall p <- s.place :: s.place[p] == Running ==> s.now - SLICE <= s.vt[p])
    && (forall p, q :: p in s.place && q in s.place && s.place[p] == Running && s.place[q] == Running ==> p == q)
  }

  const BOOT: State := State(0, map[], map[], map[], [])

  lemma ChargeBound(slice: int, w: int)
    requires 0 <= slice <= SLICE && 1 <= w
    ensures 0 <= Charge(slice, w) <= Lead(w)
    ensures w * Charge(slice, w) <= 100 * (SLICE - slice) <= w * Charge(slice, w) + w - 1
    ensures Lead(w) <= SLICE * 100
  {
    DivFacts((SLICE - slice) * 100, w);
    DivFacts(SLICE * 100, w);
    DivMono((SLICE - slice) * 100, SLICE * 100, w);
  }

  /** The weighted slice is the largest number of units that fit in it. */
  lemma LeadIs(w: int)
    requires 1 <= w
    ensures w * Lead(w) <= 100 * SLICE <= w * Lead(w) + w - 1
  {
    DivFacts(SLICE * 100, w);
  }

  lemma DivFacts(a: int, w: int)
    requires a >= 0 && w >= 1
    ensures 0 <= a / w <= a && w * (a / w) <= a <= w * (a / w) + w - 1
  {
  }

  lemma DivMono(a: int, b: int, w: int)
    requires 0 <= a <= b && w >= 1
    ensures a / w <= b / w
  {
    DivFacts(a, w);
    DivFacts(b, w);
    if a / w > b / w {
      MulMono(w, b / w + 1, a / w);
    }
  }

  lemma MulMono(w: int, x: int, y: int)
    requires w >= 0 && x <= y
    ensures w * x <= w * y
  {
  }

  lemma SortedTail(vt: map<Pid, int>, q: seq<Pid>)
    requires Sorted(vt, q) && q != []
    ensures Sorted(vt, q[1..]) && forall x <- q[1..] :: vt[q[0]] <= vt[x]
  {
  }

  lemma SortedCons(vt: map<Pid, int>, a: Pid, r: seq<Pid>)
    requires Sorted(vt, r) && a in vt && forall x <- r :: vt[a] <= vt[x]
    ensures Sorted(vt, [a] + r)
  {
    var q := [a] + r;
    forall i, j | 0 <= i < j < |q| ensures vt[q[i]] <= vt[q[j]] {
      assert q[j] == r[j - 1] && q[j] in r;
      if i > 0 {
        assert q[i] == r[i - 1];
      }
    }
  }

  lemma {:induction false} WithoutSorted(vt: map<Pid, int>, q: seq<Pid>, p: Pid)
    requires NoDups(q) && Sorted(vt, q)
    ensures Sorted(vt, Without(q, p))
  {
    if q != [] {
      TailFacts(q);
      SortedTail(vt, q);
      if q[0] != p {
        WithoutSorted(vt, q[1..], p);
        WithoutFacts(q[1..], p);
        SortedCons(vt, q[0], Without(q[1..], p));
      }
    }
  }

  lemma {:induction false} InsertFacts(wrap: bool, vt: map<Pid, int>, q: seq<Pid>, p: Pid)
    requires p in vt && p !in q && NoDups(q) && forall x <- q :: x in vt
    ensures NoDups(Insert(wrap, vt, q, p))
    ensures forall x :: x in Insert(wrap, vt, q, p) <==> x in q || x == p
  {
    if q != [] {
      TailFacts(q);
      if Before(wrap, vt[p], vt[q[0]]) {
        ConsFacts(p, q);
      } else {
        InsertFacts(wrap, vt, q[1..], p);
        ConsFacts(q[0], Insert(wrap, vt, q[1..], p));
      }
    }
  }

  lemma {:induction false} InsertSorted(vt: map<Pid, int>, q: seq<Pid>, p: Pid)
    requires p in vt && p !in q && NoDups(q) && Sorted(vt, q)
    ensures Sorted(vt, Insert(false, vt, q, p))
  {
    if q != [] {
      TailFacts(q);
      SortedTail(vt, q);
      if vt[p] < vt[q[0]] {
        SortedCons(vt, p, q);
      } else {
        InsertSorted(vt, q[1..], p);
        InsertFacts(false, vt, q[1..], p);
        SortedCons(vt, q[0], Insert(false, vt, q[1..], p));
      }
    }
  }

  lemma EnqueueKeeps(wrap: bool, s: State, p: Pid)
    requires Wf(s) && p in s.place && s.place[p] == Idle
    ensures Wf(Enqueue(wrap, s, p))
  {
    var vt := s.vt[p := Clamp(wrap, s.now, s.vt[p])];
    InsertFacts(wrap, vt, s.queue, p);
  }

  lemma StopKeeps(wrap: bool, s: State, p: Pid, slice: int)
    requires Wf(s) && p in s.place && s.place[p] == Running
    ensures Wf(Stop(wrap, s, p, slice))
  {
  }

  lemma StepKeepsWf(wrap: bool, s: State, e: Event)
    requires Wf(s) && Enabled(s, e)
    ensures Wf(Step(wrap, s, e))
  {
    match e
    case Enable(p, w) =>
    case Wake(p) => EnqueueKeeps(wrap, s, p);
    case Start(p) => WithoutFacts(s.queue, p);
    case Preempt(p, slice) =>
      StopKeeps(wrap, s, p, slice);
      EnqueueKeeps(wrap, Stop(wrap, s, p, slice), p);
    case Block(p, slice) => StopKeeps(wrap, s, p, slice);
    case Dequeue(p) => WithoutFacts(s.queue, p);
  }

  // ---------------------------------------------------------------- what each callback leaves behind

  /** `r` is the queue `q` with `p` put in at position `k`. */
  ghost predicate PutIn(q: seq<Pid>, r: seq<Pid>, p: Pid, k: nat) {
    k <= |q| && r == q[..k] + [p] + q[k..]
  }

  /** `r` is the queue `q` less `p`, the others in their order. */
  ghost predicate TakenOut(q: seq<Pid>, r: seq<Pid>, p: Pid) {
    exists k :: 0 <= k < |q| && q[k] == p && r == q[..k] + q[k + 1..]
  }

  /** `p` enters the queue behind every task that does not come later, and before the next one. */
  lemma {:induction false} InsertAt(wrap: bool, vt: map<Pid, int>, q: seq<Pid>, p: Pid) returns (k: nat)
    requires p in vt && forall x <- q :: x in vt
    ensures PutIn(q, Insert(wrap, vt, q, p), p, k)
    ensures forall i :: 0 <= i < k ==> !Before(wrap, vt[p], vt[q[i]])
    ensures k < |q| ==> Before(wrap, vt[p], vt[q[k]])
  {
    if q == [] || Before(wrap, vt[p], vt[q[0]]) {
      k := 0;
    } else {
      k := InsertAt(wrap, vt, q[1..], p);
      assert [q[0]] + (q[1..][..k] + [p] + q[1..][k..]) == q[..k + 1] + [p] + q[k + 1..];
      assert forall i :: 0 < i < k + 1 ==> q[i] == q[1..][i - 1];
      k := k + 1;
    }
  }

  lemma OutAt(q: seq<Pid>, p: Pid)
    requires NoDups(q) && p in q
    ensures TakenOut(q, Without(q, p), p)
  {
    WithoutAt(q, IndexOf(q, p));
  }

  /** `p` stands behind all tasks with a time up to its own, and right before one with a later time. */
  ghost predicate EnteredByTime(vt: map<Pid, int>, q: seq<Pid>, r: seq<Pid>, p: Pid)
    requires p in vt && forall x <- q :: x in vt
  {
    exists k: nat :: PutIn(q, r, p, k) && (forall i :: 0 <= i < k ==> vt[q[i]] <= vt[p])
                     && (k < |q| ==> vt[p] < vt[q[k]])
  }

  /** The task had the time `v` when it was enqueued: a time more than one slice behind the clock is brought up. */
  ghost predicate Enqueued(s: State, n: State, p: Pid, v: int) {
    && n.now == s.now && n.weight == s.weight && n.place == s.place[p := Queued]
    && n.vt == s.vt[p := if v < s.now - SLICE then s.now - SLICE else v]
    && (forall x <- s.queue :: x in n.vt)
    && EnteredByTime(n.vt, s.queue, n.queue, p)
  }

  /** What each event does to the clock, the times, the places and the queue. */
  ghost predicate Effect(s: State, e: Event, n: State)
    requires Wf(s) && Enabled(s, e)
  {
    match e
    case Enable(p, w) =>
      n == State(s.now, s.vt[p := s.now], s.weight[p := w], s.place[p := Idle], s.queue)
    case Wake(p) => Enqueued(s, n, p, s.vt[p])
    case Start(p) =>
      && n.now == (if s.now < s.vt[p] then s.vt[p] else s.now)
      && n.vt == s.vt && n.weight == s.weight && n.place == s.place[p := Running] && TakenOut(s.queue, n.queue, p)
    case Preempt(p, slice) => Enqueued(s, n, p, s.vt[p] + Charge(slice, s.weight[p]))
    case Block(p, slice) =>
      n == State(s.now, s.vt[p := s.vt[p] + Charge(slice, s.weight[p])], s.weight, s.place[p := Idle], s.queue)
    case Dequeue(p) =>
      && n.now == s.now && n.vt == s.vt && n.weight == s.weight && n.place == s.place[p := Idle]
      && TakenOut(s.queue, n.queue, p)
  }

  lemma EnqueueEffect(s: State, p: Pid)
    requires Wf(s) && p in s.place
    ensures Enqueued(s, Enqueue(false, s, p), p, s.vt[p])
  {
    var k := InsertAt(false, s.vt[p := Clamp(false, s.now, s.vt[p])], s.queue, p);
  }

  lemma PreemptEffect(s: State, p: Pid, slice: int)
    requires Wf(s) && Enabled(s, Preempt(p, slice))
    ensures Enqueued(s, Step(false, s, Preempt(p, slice)), p, s.vt[p] + Charge(slice, s.weight[p]))
  {
    var m := Stop(false, s, p, slice);
    StopKeeps(false, s, p, slice);
    EnqueueEffect(m, p);
    var n := Enqueue(false, m, p);
    var v := m.vt[p];
    assert m.place[p := Queued] == s.place[p := Queued];
    assert m.vt[p := n.vt[p]] == s.vt[p := n.vt[p]];
  }

  lemma StepEffect(s: State, e: Event)
    requires Wf(s) && Enabled(s, e)
    ensures Effect(s, e, Step(false, s, e))
  {
    match e
    case Wake(p) => EnqueueEffect(s, p);
    case Start(p) => OutAt(s.queue, p);
    case Preempt(p, slice) => PreemptEffect(s, p, slice);
    case Dequeue(p) => OutAt(s.queue, p);
    case _ =>
  }

  // ---------------------------------------------------------------- one step

  lemma StepKeepsBounded(s: State, e: Event)
    requires Bounded(s) && Enabled(s, e)
    ensures Bounded(Step(false, s, e))
    ensures s.now <= Step(false, s, e).now
  {
    StepKeepsWf(false, s, e);
    match e
    case Enable(p, w) =>
      ChargeBound(0, w);
    case Wake(p) =>
      EnqueueKeepsBounded(s, p);
    case Start(p) =>
      WithoutFacts(s.queue, p);
      WithoutSorted(s.vt, s.queue, p);
    case Preempt(p, slice) =>
      StopKeepsBounded(s, p, slice);
      EnqueueKeepsBounded(Stop(false, s, p, slice), p);
    case Block(p, slice) =>
      StopKeepsBounded(s, p, slice);
    case Dequeue(p) =>
      WithoutFacts(s.queue, p);
      WithoutSorted(s.vt, s.queue, p);
      ChargeBound(0, s.weight[p]);
  }

  lemma StopKeepsBounded(s: State, p: Pid, slice: int)
    requires Bounded(s) && p in s.place && s.place[p] == Running && 0 <= slice <= SLICE
    ensures Bounded(Stop(false, s, p, slice))
    ensures s.vt[p] <= Stop(false, s, p, slice).vt[p]
  {
    ChargeBound(slice, s.weight[p]);
  }

  /** Whoever is clamped stays below the clock; the others keep their times. */
  lemma ClampedBelow(s: State, p: Pid)
    requires Bounded(s) && p in s.place && s.place[p] == Idle
    ensures var v := Clamp(false, s.now, s.vt[p]); s.vt[p] <= v <= s.now + Lead(s.weight[p])
  {
    ChargeBound(0, s.weight[p]);
  }

  lemma EnqueueKeepsBounded(s: State, p: Pid)
    requires Bounded(s) && p in s.place && s.place[p] == Idle
    ensures Bounded(Enqueue(false, s, p))
  {
    ClampedBelow(s, p);
    var vt := s.vt[p := Clamp(false, s.now, s.vt[p])];
    EnqueueKeeps(false, s, p);
    assert Sorted(vt, s.queue);
    InsertSorted(vt, s.queue, p);
  }

  lemma EnqueueKeepsBanded(s: State, p: Pid)
    requires Banded(s) && p in s.place && s.place[p] == Idle
    ensures Banded(Enqueue(false, s, p))
  {
    EnqueueKeepsBounded(s, p);
    InsertFacts(false, s.vt[p := Clamp(false, s.now, s.vt[p])], s.queue, p);
  }

  lemma StepKeepsBanded(s: State, e: Event)
    requires Banded(s) && Enabled(s, e) && FrontOnly(s, e)
    ensures Banded(Step(false, s, e))
  {
    StepKeepsBounded(s, e);
    match e
    case Enable(p, w) =>
    case Wake(p) =>
      EnqueueKeepsBanded(s, p);
    case Start(p) =>
      WithoutFacts(s.queue, p);
    case Preempt(p, slice) =>
      StopKeepsBounded(s, p, slice);
      EnqueueKeepsBanded(Stop(false, s, p, slice), p);
    case Block(p, slice) =>
    case Dequeue(p) =>
      WithoutFacts(s.queue, p);
  }

  lemma SoloStop(s: State, p: Pid, slice: int)
    requires Solo(s) && p in s.place && s.place[p] == Running && 0 <= slice <= SLICE
    ensures var n := Stop(false, s, p, slice);
            && Solo(n) && n.now - SLICE <= n.vt[p] == s.vt[p] + Charge(slice, s.weight[p])
  {
    StopKeepsBounded(s, p, slice);
  }

  lemma SoloEnqueue(s: State, p: Pid)
    requires Solo(s) && p in s.place && s.place[p] == Idle
    ensures Solo(Enqueue(false, s, p))
    ensures s.now - SLICE <= s.vt[p] ==> Enqueue(false, s, p).vt == s.vt
  {
    EnqueueKeepsBanded(s, p);
    assert s.vt == s.vt[p := s.vt[p]];
  }

  lemma SoloPreempt(s: State, p: Pid, slice: int)
    requires Solo(s) && Enabled(s, Preempt(p, slice))
    ensures var n := Step(false, s, Preempt(p, slice));
            && Solo(n) && n.weight == s.weight
            && n.vt == s.vt[p := s.vt[p] + Charge(slice, s.weight[p])]
  {
    SoloStop(s, p, slice);
    var m := Stop(false, s, p, slice);
    assert m.place[p] == Idle && m.weight == s.weight && m.vt == s.vt[p := s.vt[p] + Charge(slice, s.weight[p])];
    SoloEnqueue(m, p);
    assert Step(false, s, Preempt(p, slice)) == Enqueue(false, m, p);
  }

  lemma SoloStart(s: State, p: Pid)
    requires Solo(s) && Enabled(s, Start(p)) && FrontOnly(s, Start(p)) && OneCpu(s, Start(p))
    ensures Solo(Step(false, s, Start(p)))
  {
    StepKeepsBanded(s, Start(p));
    assert p in s.queue;
  }

  lemma SoloEnable(s: State, p: Pid, w: int)
    requires Solo(s) && Enabled(s, Enable(p, w))
    ensures Solo(Step(false, s, Enable(p, w)))
  {
    StepKeepsBanded(s, Enable(p, w));
  }

  lemma SoloDequeue(s: State, p: Pid)
    requires Solo(s) && Enabled(s, Dequeue(p))
    ensures Solo(Step(false, s, Dequeue(p)))
  {
    StepKeepsBanded(s, Dequeue(p));
  }

  lemma StepKeepsSolo(s: State, e: Event)
    requires Solo(s) && Enabled(s, e) && FrontOnly(s, e) && OneCpu(s, e)
    ensures Solo(Step(false, s, e))
  {
    match e
    case Enable(p, w) => SoloEnable(s, p, w);
    case Wake(p) => SoloEnqueue(s, p);
    case Start(p) => SoloStart(s, p);
    case Preempt(p, slice) => SoloPreempt(s, p, slice);
    case Block(p, slice) => SoloStop(s, p, slice);
    case Dequeue(p) => SoloDequeue(s, p);
  }

  // ---------------------------------------------------------------- runs

  /** How tasks are taken from the shared queue. */
  datatype Regime = AnyOrder | Front | FrontOneCpu

  ghost predicate Allowed(r: Regime, s: State, e: Event) {
    && Enabled(s, e)
    && (r != AnyOrder ==> FrontOnly(s, e))
    && (r == FrontOneCpu ==> OneCpu(s, e))
  }

  ghost predicate Inv(r: Regime, s: State) {
    match r
    case AnyOrder => Bounded(s)
    case Front => Banded(s)
    case FrontOneCpu => Solo(s)
  }

  ghost predicate Run(r: Regime, s: State, es: seq<Event>)
    decreases |es|
  {
    Wf(s) && (es != [] ==> Allowed(r, s, es[0]) && Run(r, Step(false, s, es[0]), es[1..]))
  }

  ghost function Exec(r: Regime, s: State, es: seq<Event>): State
    requires Run(r, s, es)
    decreases |es|
  {
    if es == [] then s else Exec(r, Step(false, s, es[0]), es[1..])
  }

  lemma StepKeeps(r: Regime, s: State, e: Event)
    requires Inv(r, s) && Allowed(r, s, e)
    ensures Inv(r, Step(false, s, e)) && s.now <= Step(false, s, e).now
  {
    StepKeepsBounded(s, e);
    match r
    case AnyOrder =>
    case Front => StepKeepsBanded(s, e);
    case FrontOneCpu => StepKeepsSolo(s, e);
  }

  /** The clock never goes backward, whichever way tasks are picked, and each regime keeps its invariant. */
  lemma {:induction false} RunKeeps(r: Regime, s: State, es: seq<Event>)
    requires Inv(r, s) && Run(r, s, es)
    ensures Inv(r, Exec(r, s, es))
    ensures s.now <= Exec(r, s, es).now
    decreases |es|
  {
    if es != [] {
      StepKeeps(r, s, es[0]);
      RunKeeps(r, Step(false, s, es[0]), es[1..]);
    }
  }

  /** Every queued task is at most one slice behind the clock and at most one weighted slice ahead. */
  lemma QueueBand(r: Regime, es: seq<Event>, p: Pid)
    requires r != AnyOrder && Run(r, BOOT, es) && p in Exec(r, BOOT, es).queue
    ensures var s := Exec(r, BOOT, es);
            p in s.vt && p in s.weight && s.weight[p] >= 1 && s.now - SLICE <= s.vt[p] <= s.now + Lead(s.weight[p])
  {
    RunKeeps(r, BOOT, es);
  }

  // ---------------------------------------------------------------- fairness

  ghost predicate Runnable(s: State, p: Pid) {
    p in s.place && s.place[p] != Idle
  }

  ghost predicate StaysRunnable(p: Pid, s: State, es: seq<Event>)
    requires Run(FrontOneCpu, s, es)
    decreases |es|
  {
    Runnable(s, p) && (es != [] ==> StaysRunnable(p, Step(false, s, es[0]), es[1..]))
  }

  predicate StopsAt(e: Event, p: Pid) {
    (e.Preempt? || e.Block?) && e.p == p
  }

  /** CPU time a task has used in its stints that ended during the run. */
  function Used(p: Pid, es: seq<Event>): int {
    if es == [] then 0 else (if StopsAt(es[0], p) then SLICE - es[0].slice else 0) + Used(p, es[1..])
  }

  function Stints(p: Pid, es: seq<Event>): nat {
    if es == [] then 0 else (if StopsAt(es[0], p) then 1 else 0) + Stints(p, es[1..])
  }

  /** Virtual time charged to a task for those stints. */
  function Charged(p: Pid, w: int, es: seq<Event>): int
    requires w > 0
  {
    if es == [] then 0 else (if StopsAt(es[0], p) then Charge(es[0].slice, w) else 0) + Charged(p, w, es[1..])
  }

  /** One CPU: a task that stays runnable is never clamped, so its virtual time is what it was charged. */
  lemma {:induction false} ChargeTracked(p: Pid, s: State, es: seq<Event>)
    requires Solo(s) && Run(FrontOneCpu, s, es) && StaysRunnable(p, s, es)
    ensures var z := Exec(FrontOneCpu, s, es);
            && Runnable(z, p) && p in s.weight && p in z.weight && z.weight[p] == s.weight[p] >= 1
            && p in z.vt && p in s.vt
            && z.vt[p] == s.vt[p] + Charged(p, s.weight[p], es)
    decreases |es|
  {
    if es != [] {
      var n := Step(false, s, es[0]);
      StepKeepsSolo(s, es[0]);
      ChargeTracked(p, n, es[1..]);
      if StopsAt(es[0], p) {
        assert es[0].Preempt?;
        SoloPreempt(s, p, es[0].slice);
        assert n.vt[p] == s.vt[p] + Charge(es[0].slice, s.weight[p]);
      } else {
        OthersUntouched(s, es[0], p);
      }
    }
  }

  lemma OthersUntouched(s: State, e: Event, p: Pid)
    requires Solo(s) && Enabled(s, e) && Runnable(s, p) && !StopsAt(e, p)
    ensures var n := Step(false, s, e);
            && p in n.vt && p in n.weight && n.vt[p] == s.vt[p] && n.weight[p] == s.weight[p]
  {
  }

  lemma InBand(s: State, p: Pid)
    requires Solo(s) && Runnable(s, p)
    ensures p in s.vt && p in s.weight && s.weight[p] >= 1 && s.now - SLICE <= s.vt[p] <= s.now + Lead(s.weight[p])
  {
    ChargeBound(0, s.weight[p]);
  }

  /** The virtual times charged to two tasks that stay runnable differ by a constant, however long the run. */
  lemma Fairness(i: Pid, j: Pid, s: State, es: seq<Event>)
    requires Solo(s) && Run(FrontOneCpu, s, es)
    requires StaysRunnable(i, s, es) && StaysRunnable(j, s, es)
    ensures i in s.weight && j in s.weight && s.weight[i] >= 1 && s.weight[j] >= 1
    ensures var wi, wj := s.weight[i], s.weight[j];
            var d := Charged(i, wi, es) - Charged(j, wj, es);
            var bound := 2 * SLICE + Lead(wi) + Lead(wj);
            -bound <= d <= bound
  {
    ChargeTracked(i, s, es);
    ChargeTracked(j, s, es);
    RunKeeps(FrontOneCpu, s, es);
    var z := Exec(FrontOneCpu, s, es);
    InBand(s, i);
    InBand(s, j);
    InBand(z, i);
    InBand(z, j);
  }

  lemma {:induction false} NeverStopped(i: Pid, w: int, es: seq<Event>)
    requires w > 0 && forall e <- es :: !StopsAt(e, i)
    ensures Charged(i, w, es) == 0
  {
    if es != [] {
      assert es[0] in es;
      NeverStopped(i, w, es[1..]);
    }
  }

  /** While a task waits, no other runnable task can be charged more than a constant. */
  lemma WaitingIsBounded(i: Pid, j: Pid, s: State, es: seq<Event>)
    requires Solo(s) && Run(FrontOneCpu, s, es)
    requires StaysRunnable(i, s, es) && StaysRunnable(j, s, es)
    requires forall e <- es :: !StopsAt(e, i)
    ensures i in s.weight && j in s.weight && s.weight[i] >= 1 && s.weight[j] >= 1
    ensures Charged(j, s.weight[j], es) <= 2 * SLICE + Lead(s.weight[i]) + Lead(s.weight[j])
  {
    Fairness(i, j, s, es);
    NeverStopped(i, s.weight[i], es);
  }

  /** The whole-number charge follows CPU time divided by weight, up to one unit per stint. */
  lemma {:induction false} ChargeFollowsUse(p: Pid, w: int, es: seq<Event>)
    requires w >= 1 && forall e <- es :: StopsAt(e, p) ==> 0 <= e.slice <= SLICE
    ensures w * Charged(p, w, es) <= 100 * Used(p, es) <= w * Charged(p, w, es) + w * Stints(p, es)
  {
    if es != [] {
      var rest := es[1..];
      ChargeFollowsUse(p, w, rest);
      if StopsAt(es[0], p) {
        assert es[0] in es;
        ChargeBound(es[0].slice, w);
        Distribute(w, Charge(es[0].slice, w), Charged(p, w, rest));
        Distribute(w, 1, Stints(p, rest));
      }
    }
  }

  lemma Distribute(w: int, a: int, b: int)
    ensures w * (a + b) == w * a + w * b
  {
  }

  lemma {:induction false} RunSlices(p: Pid, s: State, es: seq<Event>)
    requires Run(FrontOneCpu, s, es)
    ensures forall e <- es :: StopsAt(e, p) ==> 0 <= e.slice <= SLICE
    decreases |es|
  {
    if es != [] {
      RunSlices(p, Step(false, s, es[0]), es[1..]);
      assert forall e <- es :: e == es[0] || e in es[1..];
    }
  }

  /** CPU time is shared in proportion to the weights: the cross products differ by a bounded amount. */
  lemma ProportionalShare(i: Pid, j: Pid, s: State, es: seq<Event>)
    requires Solo(s) && Run(FrontOneCpu, s, es)
    requires StaysRunnable(i, s, es) && StaysRunnable(j, s, es)
    ensures i in s.weight && j in s.weight && s.weight[i] >= 1 && s.weight[j] >= 1
    ensures var wi, wj := s.weight[i], s.weight[j];
            100 * Used(i, es) * wj - 100 * Used(j, es) * wi
              <= wi * wj * (2 * SLICE + Lead(wi) + Lead(wj) + Stints(i, es))
  {
    Fairness(i, j, s, es);
    var wi, wj := s.weight[i], s.weight[j];
    RunSlices(i, s, es);
    RunSlices(j, s, es);
    ChargeFollowsUse(i, wi, es);
    ChargeFollowsUse(j, wj, es);
    var ci, cj := Charged(i, wi, es), Charged(j, wj, es);
    CrossBound(wi, wj, ci, cj, 100 * Used(i, es), 100 * Used(j, es), Stints(i, es),
               2 * SLICE + Lead(wi) + Lead(wj));
  }

  lemma CrossBound(wi: int, wj: int, ci: int, cj: int, ui: int, uj: int, n: int, b: int)
    requires wi >= 1 && wj >= 1
    requires ui <= wi * ci + wi * n && wj * cj <= uj && ci - cj <= b
    ensures ui * wj - uj * wi <= wi * wj * (b + n)
  {
    var w := wi * wj;
    MulMono(wj, ui, wi * (ci + n)) by {
      Distribute(wi, ci, n);
    }
    MulMono(wi, wj * cj, uj);
    Associate(wj, wi, ci + n);
    Associate(wi, wj, cj);
    Distribute(w, ci + n - cj, cj);
    Positive(wi, wj);
    MulMono(w, ci + n - cj, b + n);
  }

  lemma Associate(a: int, b: int, c: int)
    ensures a * (b * c) == (a * b) * c
  {
  }

  lemma Positive(a: int, b: int)
    requires a >= 1 && b >= 1
    ensures a * b >= 1
  {
  }

  // ---------------------------------------------------------------- wrapping words

  /** The words that hold an integer state. */
  function Word(s: State): State {
    s.(now := s.now % TWO64, vt := map p | p in s.vt :: s.vt[p] % TWO64)
  }

  lemma WordBefore(a: int, b: int)
    requires -TWO63 <= a - b < TWO63
    ensures Before(true, a % TWO64, b % TWO64) <==> a < b
  {
    ModSub(a, b);
    ModNear(a - b);
  }

  /** The enqueue-time comparison can be trusted: the lag, less one slice, is at most half the circle. */
  predicate Close(now: int, v: int) {
    v >= now - SLICE || (now - SLICE - v) % TWO64 <= TWO63
  }

  lemma ClampAgrees(now: int, v: int)
    requires v <= now + SLICE * 100
    ensures Clamp(true, now % TWO64, v % TWO64) == Clamp(false, now, v) % TWO64 <==> Close(now, v)
  {
    ModAdd(now, -SLICE);
    var floor := now - SLICE;
    ModSub(v, floor);
    WordEquality(v, floor);
    var lag := floor - v;
    if lag <= 0 {
      ModNear(v - floor);
    } else {
      ModNeg(lag);
    }
  }

  lemma {:induction false} InsertAgrees(vt: map<Pid, int>, wt: map<Pid, int>, q: seq<Pid>, p: Pid)
    requires p in vt && (forall x <- q :: x in vt) && wt == map x | x in vt :: vt[x] % TWO64
    requires forall x <- q :: -TWO63 <= vt[p] - vt[x] < TWO63
    ensures Insert(true, wt, q, p) == Insert(false, vt, q, p)
  {
    if q != [] {
      assert q[0] in q;
      WordBefore(vt[p], vt[q[0]]);
      InsertAgrees(vt, wt, q[1..], p);
    }
  }

  /** The word to be enqueued is close to the clock. */
  predicate LagOk(s: State, e: Event)
    requires Wf(s) && Enabled(s, e)
  {
    match e
    case Wake(p) => Close(s.now, s.vt[p])
    case Preempt(p, slice) => Close(s.now, s.vt[p] + Charge(slice, s.weight[p]))
    case _ => true
  }

  lemma WordEnqueue(s: State, p: Pid)
    requires Banded(s) && p in s.place && s.place[p] == Idle
    ensures Wf(Word(s))
    ensures Enqueue(true, Word(s), p) == Word(Enqueue(false, s, p)) <==> Close(s.now, s.vt[p])
  {
    var u := Word(s);
    ChargeBound(0, s.weight[p]);
    ClampAgrees(s.now, s.vt[p]);
    var vt := s.vt[p := Clamp(false, s.now, s.vt[p])];
    var wt := u.vt[p := Clamp(true, u.now, u.vt[p])];
    if Close(s.now, s.vt[p]) {
      assert wt == map x | x in vt :: vt[x] % TWO64;
      forall x | x in s.queue ensures -TWO63 <= vt[p] - vt[x] < TWO63 {
        ChargeBound(0, s.weight[x]);
      }
      InsertAgrees(vt, wt, s.queue, p);
    } else {
      assert Enqueue(true, u, p).vt[p] != Word(Enqueue(false, s, p)).vt[p];
    }
  }

  lemma WordStop(s: State, p: Pid, slice: int)
    requires Banded(s) && p in s.place && s.place[p] == Running && 0 <= slice <= SLICE
    ensures Wf(Word(s)) && Stop(true, Word(s), p, slice) == Word(Stop(false, s, p, slice))
  {
    ModAdd(s.vt[p], Charge(slice, s.weight[p]));
  }

  lemma WordEnable(s: State, p: Pid, w: int)
    requires Wf(s) && Enabled(s, Enable(p, w))
    ensures Wf(Word(s)) && Step(true, Word(s), Enable(p, w)) == Word(Step(false, s, Enable(p, w)))
  {
  }

  lemma WordDequeue(s: State, p: Pid)
    requires Wf(s) && Enabled(s, Dequeue(p))
    ensures Wf(Word(s)) && Step(true, Word(s), Dequeue(p)) == Word(Step(false, s, Dequeue(p)))
  {
  }

  lemma StopKeepsBanded(s: State, p: Pid, slice: int)
    requires Banded(s) && p in s.place && s.place[p] == Running && 0 <= slice <= SLICE
    ensures var n := Stop(false, s, p, slice);
            Banded(n) && n.place[p] == Idle && n.now == s.now && n.vt[p] == s.vt[p] + Charge(slice, s.weight[p])
  {
    StopKeepsBounded(s, p, slice);
  }

  lemma PreemptIsStopEnqueue(s: State, p: Pid, slice: int)
    requires Banded(s) && Enabled(s, Preempt(p, slice))
    ensures var n := Stop(false, s, p, slice);
            && Banded(n) && p in n.place && Wf(Word(s)) && Wf(Word(n)) && Enabled(Word(s), Preempt(p, slice))
            && Step(false, s, Preempt(p, slice)) == Enqueue(false, n, p)
            && Step(true, Word(s), Preempt(p, slice)) == Enqueue(true, Word(n), p)
  {
    StopKeepsBanded(s, p, slice);
    WordStop(s, p, slice);
  }

  lemma WordPreempt(s: State, p: Pid, slice: int)
    requires Banded(s) && Enabled(s, Preempt(p, slice))
    ensures var e := Preempt(p, slice);
            Wf(Word(s)) && (Step(true, Word(s), e) == Word(Step(false, s, e)) <==> LagOk(s, e))
  {
    PreemptIsStopEnqueue(s, p, slice);
    StopKeepsBanded(s, p, slice);
    WordEnqueue(Stop(false, s, p, slice), p);
  }

  lemma WordStart(s: State, p: Pid)
    requires Banded(s) && p in s.place && s.place[p] == Queued
    ensures Wf(Word(s)) && Step(true, Word(s), Start(p)) == Word(Step(false, s, Start(p)))
  {
    ChargeBound(0, s.weight[p]);
    WordBefore(s.now, s.vt[p]);
  }

  /** One step of the wrapping machine is the integer step modulo 2^64 exactly when the lag is small enough. */
  lemma WrapSafeStep(s: State, e: Event)
    requires Banded(s) && Enabled(s, e) && FrontOnly(s, e)
    ensures Wf(Word(s)) && Enabled(Word(s), e)
    ensures Step(true, Word(s), e) == Word(Step(false, s, e)) <==> LagOk(s, e)
  {
    match e
    case Enable(p, w) => WordEnable(s, p, w);
    case Wake(p) => WordEnqueue(s, p);
    case Start(p) => WordStart(s, p);
    case Preempt(p, slice) => WordPreempt(s, p, slice);
    case Block(p, slice) => WordStop(s, p, slice);
    case Dequeue(p) => WordDequeue(s, p);
  }

  // ---------------------------------------------------------------- a lag that is too large

  /** Task 0 has slept since boot while task 1 used up `n` whole slices on its own. */
  function Spun(n: nat): State {
    var now := if n == 0 then 0 else (n - 1) * (SLICE * 100);
    State(now, map[0 := 0, 1 := n * (SLICE * 100)], map[0 := 1, 1 := 1], map[0 := Idle, 1 := Idle], [])
  }

  ghost predicate Leads(s: State, e: Event, n: State) {
    Wf(s) && Enabled(s, e) && FrontOnly(s, e) && Step(false, s, e) == n
  }

  lemma RunFirst(s: State, e: Event, n: State, rest: seq<Event>)
    requires Leads(s, e, n) && Wf(n) && Run(Front, n, rest)
    ensures Run(Front, s, [e] + rest) && Exec(Front, s, [e] + rest) == Exec(Front, n, rest)
  {
    assert ([e] + rest)[1..] == rest;
  }

  function SpunQueued(n: nat): State {
    Spun(n).(place := map[0 := Idle, 1 := Queued], queue := [1])
  }

  function SpunRunning(n: nat): State {
    Spun(n + 1).(vt := Spun(n).vt, place := map[0 := Idle, 1 := Running])
  }

  lemma SpunWakes(n: nat)
    ensures Wf(Spun(n)) && Enabled(Spun(n), Wake(1)) && Step(false, Spun(n), Wake(1)) == SpunQueued(n)
    ensures Wf(SpunQueued(n))
  {
    var s := Spun(n);
    assert Clamp(false, s.now, s.vt[1]) == s.vt[1];
    assert s.vt[1 := s.vt[1]] == s.vt;
  }

  lemma SpunStarts(n: nat)
    ensures Wf(SpunQueued(n)) && Enabled(SpunQueued(n), Start(1)) && FrontOnly(SpunQueued(n), Start(1))
    ensures Step(false, SpunQueued(n), Start(1)) == SpunRunning(n) && Wf(SpunRunning(n))
  {
  }

  lemma SpunBlocks(n: nat)
    ensures Wf(SpunRunning(n)) && Enabled(SpunRunning(n), Block(1, 0))
    ensures Step(false, SpunRunning(n), Block(1, 0)) == Spun(n + 1)
  {
    assert Charge(0, 1) == SLICE * 100;
  }

  /** Task 1 wakes, starts and blocks with its slice used up, and then `rest` happens. */
  function Round(rest: seq<Event>): seq<Event> {
    [Wake(1)] + ([Start(1)] + ([Block(1, 0)] + rest))
  }

  lemma OneRound(n: nat, rest: seq<Event>)
    requires Run(Front, Spun(n + 1), rest)
    ensures Run(Front, Spun(n), Round(rest)) && Exec(Front, Spun(n), Round(rest)) == Exec(Front, Spun(n + 1), rest)
  {
    SpunWakes(n);
    SpunStarts(n);
    SpunBlocks(n);
    SpunWakes(n + 1);
    RunFirst(SpunRunning(n), Block(1, 0), Spun(n + 1), rest);
    RunFirst(SpunQueued(n), Start(1), SpunRunning(n), [Block(1, 0)] + rest);
    RunFirst(Spun(n), Wake(1), SpunQueued(n), [Start(1)] + ([Block(1, 0)] + rest));
  }

  lemma {:induction false} SpinFrom(k: nat, n: nat) returns (es: seq<Event>)
    requires k <= n
    ensures Run(Front, Spun(k), es) && Exec(Front, Spun(k), es) == Spun(n)
    decreases n - k
  {
    if k == n {
      SpunWakes(n);
      es := [];
    } else {
      es := SpinFrom(k + 1, n);
      OneRound(k, es);
      es := Round(es);
    }
  }

  lemma Spin(n: nat) returns (es: seq<Event>)
    ensures Run(Front, BOOT, es) && Exec(Front, BOOT, es) == Spun(n)
  {
    es := SpinFrom(0, n);
    BothEnabled(es);
    es := [Enable(0, 1)] + ([Enable(1, 1)] + es);
  }

  lemma BothEnabled(rest: seq<Event>)
    requires Run(Front, Spun(0), rest)
    ensures var es := [Enable(0, 1)] + ([Enable(1, 1)] + rest);
            Run(Front, BOOT, es) && Exec(Front, BOOT, es) == Exec(Front, Spun(0), rest)
  {
    var s1 := Step(false, BOOT, Enable(0, 1));
    RunFirst(s1, Enable(1, 1), Spun(0), rest);
    RunFirst(BOOT, Enable(0, 1), s1, [Enable(1, 1)] + rest);
  }

  lemma SpunBanded(n: nat)
    ensures Banded(Spun(n))
  {
    ChargeBound(0, 1);
  }

  /**
   A run from boot in which a task sleeps while the clock runs more than half way round.  When it
   wakes the integer machine clamps it to one slice behind the clock; the words take it to be
   ahead and leave it at 0.
   */
  lemma LongSleepBreaks() returns (es: seq<Event>)
    ensures Run(Front, BOOT, es)
    ensures var s := Exec(Front, BOOT, es);
            && Wf(s) && Wf(Word(s)) && Enabled(s, Wake(0)) && Enabled(Word(s), Wake(0)) && !LagOk(s, Wake(0))
            && Step(false, s, Wake(0)).vt[0] == s.now - SLICE > TWO63
            && Step(true, Word(s), Wake(0)).vt[0] == 0
  {
    var n := 4_611_686_020;
    es := Spin(n);
    SpunBanded(n);
    LongLag(Spun(n));
  }

  lemma LongLag(s: State)
    requires Banded(s) && 0 in s.place && s.place[0] == Idle && s.vt[0] == 0
    requires TWO63 < s.now - SLICE && s.now < TWO64
    ensures Wf(Word(s)) && Enabled(s, Wake(0)) && Enabled(Word(s), Wake(0)) && !LagOk(s, Wake(0))
    ensures Step(false, s, Wake(0)).vt[0] == s.now - SLICE && Step(true, Word(s), Wake(0)).vt[0] == 0
  {
    ModNear(0);
    ModNear(s.now);
    ModNear(s.now - SLICE);
    ModNear(0 - (s.now - SLICE));
  }

  ghost predicate WordRun(u: State, es: seq<Event>)
    decreases |es|
  {
    Wf(u) && (es != [] ==> Enabled(u, es[0]) && WordRun(Step(true, u, es[0]), es[1..]))
  }

  ghost function WordExec(u: State, es: seq<Event>): State
    requires WordRun(u, es)
    decreases |es|
  {
    if es == [] then u else WordExec(Step(true, u, es[0]), es[1..])
  }

  ghost predicate LagsOk(s: State, es: seq<Event>)
    requires Run(Front, s, es)
    decreases |es|
  {
    es != [] ==> LagOk(s, es[0]) && LagsOk(Step(false, s, es[0]), es[1..])
  }

  /** Whole runs of the wrapping machine are the integer runs modulo 2^64. */
  lemma {:induction false} WrapSafeRun(s: State, es: seq<Event>)
    requires Banded(s) && Run(Front, s, es) && LagsOk(s, es)
    ensures WordRun(Word(s), es)
    ensures WordExec(Word(s), es) == Word(Exec(Front, s, es))
    decreases |es|
  {
    if es == [] {
      assert Wf(Word(s));
    } else {
      WrapSafeStep(s, es[0]);
      StepKeepsBanded(s, es[0]);
      WrapSafeRun(Step(false, s, es[0]), es[1..]);
    }
  }

  /** The words hold the integer state at the start, and after every step. */
  ghost predicate InStep(s: State, u: State, es: seq<Event>)
    requires Run(Front, s, es)
    decreases |es|
  {
    && u == Word(s)
    && (es != [] ==> Wf(u) && Enabled(u, es[0]) && InStep(Step(false, s, es[0]), Step(true, u, es[0]), es[1..]))
  }

  /** The words follow the integers through a whole run exactly when every lag in it is small enough. */
  lemma {:induction false} WrapSafeExactly(s: State, es: seq<Event>)
    requires Banded(s) && Run(Front, s, es)
    ensures InStep(s, Word(s), es) <==> LagsOk(s, es)
    decreases |es|
  {
    if es != [] {
      var n := Step(false, s, es[0]);
      WrapSafeStep(s, es[0]);
      StepKeepsBanded(s, es[0]);
      if LagOk(s, es[0]) {
        WrapSafeExactly(n, es[1..]);
      } else {
        NotInStep(n, Step(true, Word(s), es[0]), es[1..]);
      }
    }
  }

  lemma NotInStep(s: State, u: State, es: seq<Event>)
    requires Run(Front, s, es) && u != Word(s)
    ensures !InStep(s, u, es)
  {
  }

  /** What the words show: seen from one slice before the clock, every queued word is a short way ahead. */
  lemma WordBand(es: seq<Event>, p: Pid)
    requires Run(Front, BOOT, es) && LagsOk(BOOT, es)
    requires p in Exec(Front, BOOT, es).queue
    ensures WordRun(Word(BOOT), es)
    ensures var u := WordExec(Word(BOOT), es);
            && p in u.queue && p in u.vt && p in u.weight && u.weight[p] >= 1
            && (u.vt[p] - (u.now - SLICE)) % TWO64 <= SLICE + Lead(u.weight[p])
  {
    WrapSafeRun(BOOT, es);
    QueueBand(Front, es, p);
    var s := Exec(Front, BOOT, es);
    ChargeBound(0, s.weight[p]);
    WordDistance(s.now, s.vt[p]);
  }

  lemma WordDistance(now: int, v: int)
    requires now - SLICE <= v <= now + SLICE * 100
    ensures (v % TWO64 - (now % TWO64 - SLICE)) % TWO64 == v - now + SLICE
  {
    ModIs(v % TWO64 - (now % TWO64 - SLICE), now / TWO64 - v / TWO64, v - now + SLICE);
  }
}
