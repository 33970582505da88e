/**
 The callbacks of scx_simple as methods over the policy's variables, and the order in which
 the framework calls them.  Each framework event is one step of the wrapping machine of
 module VirtualTime.
 */
module SimpleScheduler {
  import opened Queues
  import opened Words
  import opened VirtualTime

  predicate TimeBefore(a: U64, b: U64) {
    Signed((a - b) % TWO64) < 0
  }

  /** In words, `p` stands behind all tasks that are not ahead of it, and right before one that is. */
  ghost predicate EnteredByWord(vt: map<Pid, int>, q: seq<Pid>, r: seq<Pid>, p: Pid)
    requires p in vt && forall x <- q :: x in vt
  {
    exists k: nat :: PutIn(q, r, p, k) && (forall i :: 0 <= i < k ==> Signed((vt[p] - vt[q[i]]) % TWO64) >= 0)
                     && (k < |q| ==> Signed((vt[p] - vt[q[k]]) % TWO64) < 0)
  }

  /**
   In words, a task with the time `v` was enqueued: a time more than one slice behind the clock is
   brought up to one slice behind it.
   */
  ghost predicate EnqueuedByWord(now: int, vt: map<Pid, int>, q: seq<Pid>, wt: map<Pid, int>, r: seq<Pid>, p: Pid,
                                 v: int) {
    var floor := (now - SLICE) % TWO64;
    && wt == vt[p := if Signed((v - floor) % TWO64) < 0 then floor else v]
    && (forall x <- q :: x in wt) && EnteredByWord(wt, q, r, p)
  }

  lemma BeforeIsSigned(a: int, b: int)
    ensures Before(true, a, b) <==> Signed((a - b) % TWO64) < 0
  {
  }

  lemma EntersByWord(vt: map<Pid, int>, q: seq<Pid>, p: Pid)
    requires p in vt && forall x <- q :: x in vt
    ensures EnteredByWord(vt, q, Insert(true, vt, q, p), p)
  {
    var k := InsertAt(true, vt, q, p);
    forall i | 0 <= i < k ensures Signed((vt[p] - vt[q[i]]) % TWO64) >= 0 {
      BeforeIsSigned(vt[p], vt[q[i]]);
    }
    if k < |q| {
      BeforeIsSigned(vt[p], vt[q[k]]);
    }
  }

  lemma ClampInWords(now: int, v: int)
    ensures var floor := (now - SLICE) % TWO64;
            Clamp(true, now, v) == if Signed((v - floor) % TWO64) < 0 then floor else v
  {
    BeforeIsSigned(v, (now - SLICE) % TWO64);
  }

  lemma EnqueueInWords(now: int, vt: map<Pid, int>, q: seq<Pid>, p: Pid)
    requires p in vt && forall x <- q :: x in vt
    ensures var wt := vt[p := Clamp(true, now, vt[p])];
            EnqueuedByWord(now, vt, q, wt, Insert(true, wt, q, p), p, vt[p])
  {
    ClampInWords(now, vt[p]);
    EntersByWord(vt[p := Clamp(true, now, vt[p])], q, p);
  }

  /** What each event does to the words: VirtualTime.Effect with the difference of words for the order of times. */
  ghost predicate WordEffect(u: State, e: Event, n: State)
    requires Wf(u) && Enabled(u, e)
  {
    match e
    case Enable(p, w) =>
      n == State(u.now, u.vt[p := u.now], u.weight[p := w], u.place[p := Idle], u.queue)
    case Wake(p) =>
      && n.now == u.now && n.weight == u.weight && n.place == u.place[p := Queued]
      && EnqueuedByWord(u.now, u.vt, u.queue, n.vt, n.queue, p, u.vt[p])
    case Start(p) =>
      && n.now == (if Signed((u.now - u.vt[p]) % TWO64) < 0 then u.vt[p] else u.now)
      && n.vt == u.vt && n.weight == u.weight && n.place == u.place[p := Running] && TakenOut(u.queue, n.queue, p)
    case Preempt(p, slice) =>
      && n.now == u.now && n.weight == u.weight && n.place == u.place[p := Queued]
      && EnqueuedByWord(u.now, u.vt, u.queue, n.vt, n.queue, p, (u.vt[p] + Charge(slice, u.weight[p])) % TWO64)
    case Block(p, slice) =>
      && n.now == u.now && n.weight == u.weight && n.place == u.place[p := Idle] && n.queue == u.queue
      && n.vt == u.vt[p := (u.vt[p] + Charge(slice, u.weight[p])) % TWO64]
    case Dequeue(p) =>
      && n.now == u.now && n.vt == u.vt && n.weight == u.weight && n.place == u.place[p := Idle]
      && TakenOut(u.queue, n.queue, p)
  }

  lemma StoppedWords(u: State, p: Pid, slice: int)
    requires Wf(u) && Enabled(u, Preempt(p, slice))
    ensures var m := Stop(true, u, p, slice);
            && m.now == u.now && m.weight == u.weight && m.queue == u.queue && m.place == u.place[p := Idle]
            && m.vt == u.vt[p := (u.vt[p] + Charge(slice, u.weight[p])) % TWO64]
  {
  }

  lemma LastUpdate<V>(m: map<Pid, V>, p: Pid, x: V, y: V)
    ensures m[p := x][p := y] == m[p := y]
  {
  }

  lemma PreemptInWords(u: State, p: Pid, slice: int)
    requires Wf(u) && Enabled(u, Preempt(p, slice))
    ensures var n, v := Step(true, u, Preempt(p, slice)), (u.vt[p] + Charge(slice, u.weight[p])) % TWO64;
            && n.now == u.now && n.weight == u.weight && n.place == u.place[p := Queued]
            && EnqueuedByWord(u.now, u.vt, u.queue, n.vt, n.queue, p, v)
  {
    StoppedWords(u, p, slice);
    var m := Stop(true, u, p, slice);
    StopKeeps(true, u, p, slice);
    EnqueueInWords(m.now, m.vt, m.queue, p);
    LastUpdate(u.place, p, Idle, Queued);
    LastUpdate(u.vt, p, m.vt[p], Clamp(true, m.now, m.vt[p]));
  }

  lemma StartInWords(u: State, p: Pid)
    requires Wf(u) && Enabled(u, Start(p))
    ensures WordEffect(u, Start(p), Step(true, u, Start(p)))
  {
    BeforeIsSigned(u.now, u.vt[p]);
    OutAt(u.queue, p);
  }

  lemma WakeInWords(u: State, p: Pid)
    requires Wf(u) && Enabled(u, Wake(p))
    ensures WordEffect(u, Wake(p), Step(true, u, Wake(p)))
  {
    EnqueueInWords(u.now, u.vt, u.queue, p);
  }

  lemma PreemptStepInWords(u: State, p: Pid, slice: int)
    requires Wf(u) && Enabled(u, Preempt(p, slice))
    ensures WordEffect(u, Preempt(p, slice), Step(true, u, Preempt(p, slice)))
  {
    PreemptInWords(u, p, slice);
  }

  lemma OtherInWords(u: State, e: Event)
    requires Wf(u) && Enabled(u, e) && (e.Enable? || e.Block? || e.Dequeue?)
    ensures WordEffect(u, e, Step(true, u, e))
  {
    if e.Dequeue? {
      OutAt(u.queue, e.p);
    }
  }

  /** The same for the machine over words. */
  lemma StepInWords(u: State, e: Event)
    requires Wf(u) && Enabled(u, e)
    ensures WordEffect(u, e, Step(true, u, e))
  {
    match e
    case Wake(p) => WakeInWords(u, p);
    case Start(p) => StartInWords(u, p);
    case Preempt(p, slice) => PreemptStepInWords(u, p, slice);
    case _ => OtherInWords(u, e);
  }

  class SimpleSched {
    const fifoSched: bool

    // the policy's variables; dsqVtime is p->scx.dsq_vtime
    var vtimeNow: U64
    var dsqVtime: map<Pid, U64>

    // the framework's: weights, where each task is, the shared queue, this CPU's local queue
    var weight: map<Pid, int>
    var place: map<Pid, Place>
    var sharedDsq: seq<Pid>
    var localDsq: seq<Pid>

    ghost function View(): State
      reads this
    {
      State(vtimeNow, dsqVtime, weight, place, sharedDsq)
    }

    constructor (fifo: bool)
      ensures fifoSched == fifo && View() == Word(BOOT) && localDsq == []
    {
      fifoSched := fifo;
      vtimeNow := 0;
      dsqVtime, weight, place := map[], map[], map[];
      sharedDsq, localDsq := [], [];
      new;
      assert View() == Word(BOOT);
    }

    // -------------------------------------------------------------- callbacks

    method SimpleEnqueue(p: Pid)
      requires p in dsqVtime && forall x <- sharedDsq :: x in dsqVtime
      modifies this`dsqVtime, this`sharedDsq, this`localDsq
      ensures fifoSched ==> dsqVtime == old(dsqVtime) && sharedDsq == old(sharedDsq) && localDsq == old(localDsq) + [p]
      ensures !fifoSched ==>
                && EnqueuedByWord(vtimeNow, old(dsqVtime), old(sharedDsq), dsqVtime, sharedDsq, p, old(dsqVtime)[p])
                && localDsq == old(localDsq)
      ensures !fifoSched ==>
                && dsqVtime == old(dsqVtime)[p := Clamp(true, vtimeNow, old(dsqVtime)[p])]
                && sharedDsq == Insert(true, dsqVtime, old(sharedDsq), p)
    {
      if fifoSched {
        localDsq := localDsq + [p];
      } else {
        EnqueueInWords(vtimeNow, dsqVtime, sharedDsq, p);
        EnqueueByTime(p);
      }
    }

    /** The virtual-time half of simple_enqueue. */
    method EnqueueByTime(p: Pid)
      requires p in dsqVtime && forall x <- sharedDsq :: x in dsqVtime
      modifies this`dsqVtime, this`sharedDsq
      ensures dsqVtime == old(dsqVtime)[p := Clamp(true, vtimeNow, old(dsqVtime)[p])]
      ensures sharedDsq == Insert(true, dsqVtime, old(sharedDsq), p)
    {
      var vtime := dsqVtime[p];
      var floor := (vtimeNow - SLICE) % TWO64;
      if TimeBefore(vtime, floor) {
        vtime := floor;
      }
      dsqVtime := dsqVtime[p := vtime];
      sharedDsq := Insert(true, dsqVtime, sharedDsq, p);
    }

    method SimpleRunning(p: Pid)
      requires p in dsqVtime
      modifies this`vtimeNow
      ensures vtimeNow == if !fifoSched && Signed((old(vtimeNow) - dsqVtime[p]) % TWO64) < 0 then dsqVtime[p]
                          else old(vtimeNow)
    {
      if fifoSched {
        return;
      }
      if TimeBefore(vtimeNow, dsqVtime[p]) {
        vtimeNow := dsqVtime[p];
      }
    }

    method SimpleStopping(p: Pid, slice: int)
      requires p in dsqVtime && p in weight && weight[p] >= 1 && 0 <= slice <= SLICE
      modifies this`dsqVtime
      ensures dsqVtime == if fifoSched then old(dsqVtime)
                          else old(dsqVtime)[p := (old(dsqVtime)[p] + Charge(slice, weight[p])) % TWO64]
    {
      if fifoSched {
        return;
      }
      dsqVtime := dsqVtime[p := (dsqVtime[p] + (SLICE - slice) * 100 / weight[p]) % TWO64];
    }

    method SimpleEnable(p: Pid)
      modifies this`dsqVtime
      ensures dsqVtime == old(dsqVtime)[p := vtimeNow]
    {
      dsqVtime := dsqVtime[p := vtimeNow];
    }

    // -------------------------------------------------------------- framework events

    method EnableTask(p: Pid, w: int)
      requires Wf(View()) && Enabled(View(), Enable(p, w))
      modifies this
      ensures View() == Step(true, old(View()), Enable(p, w))
    {
      SimpleEnable(p);
      weight, place := weight[p := w], place[p := Idle];
    }

    method WakeTask(p: Pid)
      requires !fifoSched && Wf(View()) && Enabled(View(), Wake(p))
      modifies this
      ensures View() == Step(true, old(View()), Wake(p))
    {
      SimpleEnqueue(p);
      place := place[p := Queued];
    }

    /** Takes the front of the shared queue; there is nothing to do when it is empty. */
    method RunNext() returns (p: Option<Pid>)
      requires !fifoSched && Wf(View())
      modifies this
      ensures p.None? <==> old(sharedDsq) == []
      ensures p.None? ==> View() == old(View())
      ensures p.Some? ==> p.value == old(sharedDsq)[0] && View() == Step(true, old(View()), Start(p.value))
    {
      if sharedDsq == [] {
        return None;
      }
      p := Some(sharedDsq[0]);
      WithoutFacts(sharedDsq, p.value);
      place := place[p.value := Running];
      sharedDsq := sharedDsq[1..];
      SimpleRunning(p.value);
    }

    method PreemptTask(p: Pid, slice: int)
      requires !fifoSched && Wf(View()) && Enabled(View(), Preempt(p, slice))
      modifies this
      ensures View() == Step(true, old(View()), Preempt(p, slice))
    {
      ghost var n := Stop(true, View(), p, slice);
      StopKeeps(true, View(), p, slice);
      SimpleStopping(p, slice);
      place := place[p := Idle];
      assert View() == n;
      SimpleEnqueue(p);
      place := place[p := Queued];
      assert View() == Enqueue(true, n, p);
    }

    method BlockTask(p: Pid, slice: int)
      requires !fifoSched && Wf(View()) && Enabled(View(), Block(p, slice))
      modifies this
      ensures View() == Step(true, old(View()), Block(p, slice))
    {
      SimpleStopping(p, slice);
      place := place[p := Idle];
    }
  }
}
