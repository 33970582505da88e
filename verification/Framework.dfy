/**
 The part of the scheduling framework the policies rely on: where each task is, which CPU it
 belongs to, the runqueues, and the task each core runs.  `ChangeState` is the contract of
 `change_state`: it takes the task off its old queue or core, appends it at the tail of the
 new queue or makes it the running task; only MIGRATING changes the task's CPU.
 */
module Framework {
  import opened Queues

  datatype Queue = Shared | Own(core: nat)

  /** READY and READY_TICK are one place: both mean "in this queue". */
  datatype Place =
    | NotQueued
    | Ready(queue: Queue)
    | Running(core: nat)
    | Held(core: nat)        // taken off its queue by a core, not yet put anywhere
    | Migrating(core: nat)
    | Blocked
    | Terminated

  datatype Fw = Fw(place: map<Tid, Place>, cpu: map<Tid, nat>, shared: seq<Tid>, own: seq<seq<Tid>>,
                   current: seq<Option<Tid>>)

  // ---------------------------------------------------------------- well-formed states

  /** The queue for place `p` holds exactly the tasks whose place is `p`, each once. */
  ghost predicate QueueOk(place: map<Tid, Place>, q: seq<Tid>, p: Place) {
    NoDups(q) && forall t :: t in q <==> t in place && place[t] == p
  }

  ghost predicate SlotOk(place: map<Tid, Place>, slot: Option<Tid>, c: nat) {
    forall t :: slot == Some(t) <==> t in place && place[t] == Running(c)
  }

  /** The place names a core of the machine, if it names one. */
  predicate Fits(n: nat, p: Place) {
    match p
    case Ready(Own(c)) => c < n
    case Running(c) => c < n
    case Held(c) => c < n
    case Migrating(c) => c < n
    case _ => true
  }

  /** Every task is where its place says, there only, and once only. */
  ghost predicate Wf(f: Fw) {
    && |f.own| == |f.current|
    && f.place.Keys == f.cpu.Keys
    && QueueOk(f.place, f.shared, Ready(Shared))
    && (forall c: nat :: c < |f.own| ==> QueueOk(f.place, f.own[c], Ready(Own(c))))
    && (forall c: nat :: c < |f.own| ==> SlotOk(f.place, f.current[c], c))
    && (forall t <- f.place :: Fits(|f.own|, f.place[t]))
  }

  // ---------------------------------------------------------------- change_state

  function PlaceOf(f: Fw, t: Tid): Place {
    if t in f.place then f.place[t] else NotQueued
  }

  function CpuOf(f: Fw, t: Tid): nat {
    if t in f.cpu then f.cpu[t] else 0
  }

  /** The queue for place `p` after `t` moved from `from` to `to`. */
  function Moved(q: seq<Tid>, p: Place, t: Tid, from: Place, to: Place): seq<Tid> {
    var r := if from == p then Without(q, t) else q;
    if to == p then r + [t] else r
  }

  function Slot(slot: Option<Tid>, c: nat, t: Tid, from: Place, to: Place): Option<Tid> {
    if to == Running(c) then Some(t) else if from == Running(c) then None else slot
  }

  function ChangeState(f: Fw, t: Tid, to: Place): (g: Fw)
    ensures g.place == f.place[t := to] && |g.own| == |f.own| && |g.current| == |f.current|
    ensures forall c :: 0 <= c < |f.own| ==> g.own[c] == Moved(f.own[c], Ready(Own(c)), t, PlaceOf(f, t), to)
    ensures forall c :: 0 <= c < |f.current| ==> g.current[c] == Slot(f.current[c], c, t, PlaceOf(f, t), to)
  {
    var from := PlaceOf(f, t);
    Fw(f.place[t := to],
       if to.Migrating? then f.cpu[t := to.core] else f.cpu,
       Moved(f.shared, Ready(Shared), t, from, to),
       seq(|f.own|, c requires 0 <= c < |f.own| => Moved(f.own[c], Ready(Own(c)), t, from, to)),
       seq(|f.current|, c requires 0 <= c < |f.current| => Slot(f.current[c], c, t, from, to)))
  }

  /** No task has this id, or the one that had it has ended. */
  predicate Unused(f: Fw, t: Tid) {
    t in f.place ==> f.place[t] == Terminated
  }

  /** A task the framework has just created, not queued, on a CPU; the id may be one that an ended task left. */
  function Create(f: Fw, t: Tid, cpu: nat): Fw {
    f.(place := f.place[t := NotQueued], cpu := f.cpu[t := cpu])
  }

  lemma RemovedOk(place: map<Tid, Place>, q: seq<Tid>, p: Place, t: Tid, other: Place)
    requires QueueOk(place, q, p) && t in place && other != p
    ensures QueueOk(place[t := other], if place[t] == p then Without(q, t) else q, p)
  {
    if place[t] == p {
      WithoutFacts(q, t);
    }
  }

  lemma MovedOk(place: map<Tid, Place>, q: seq<Tid>, p: Place, t: Tid, to: Place)
    requires QueueOk(place, q, p) && t in place
    ensures QueueOk(place[t := to], Moved(q, p, t, place[t], to), p)
  {
    if to != p {
      RemovedOk(place, q, p, t, to);
    } else {
      var other := if p == Blocked then Terminated else Blocked;
      RemovedOk(place, q, p, t, other);
      var r := if place[t] == p then Without(q, t) else q;
      assert place[t := other][t := to] == place[t := to];
      AppendedOk(place[t := other], r, p, t);
    }
  }

  lemma AppendedOk(place: map<Tid, Place>, q: seq<Tid>, p: Place, t: Tid)
    requires QueueOk(place, q, p) && t in place && place[t] != p
    ensures QueueOk(place[t := p], q + [t], p)
  {
    SnocFacts(q, t);
  }

  /** Every state change keeps each task in exactly one place. */
  lemma ChangeStateWf(f: Fw, t: Tid, to: Place)
    requires Wf(f) && t in f.place && Fits(|f.own|, to)
    requires to.Running? ==> f.current[to.core] in {None, Some(t)}
    ensures Wf(ChangeState(f, t, to))
  {
    var g := ChangeState(f, t, to);
    MovedOk(f.place, f.shared, Ready(Shared), t, to);
    forall c: nat | c < |f.own| ensures QueueOk(g.place, g.own[c], Ready(Own(c))) {
      MovedOk(f.place, f.own[c], Ready(Own(c)), t, to);
    }
    forall c: nat | c < |f.own| ensures SlotOk(g.place, g.current[c], c) {
      assert SlotOk(f.place, f.current[c], c);
    }
  }

  lemma CreateWf(f: Fw, t: Tid, cpu: nat)
    requires Wf(f) && Unused(f, t)
    ensures Wf(Create(f, t, cpu))
  {
    var g := Create(f, t, cpu);
    assert QueueOk(g.place, g.shared, Ready(Shared));
    forall c: nat | c < |f.own| ensures QueueOk(g.place, g.own[c], Ready(Own(c))) && SlotOk(g.place, g.current[c], c) {
      assert QueueOk(f.place, f.own[c], Ready(Own(c))) && SlotOk(f.place, f.current[c], c);
    }
  }

  /** A move of a task that is not in a local queue takes nothing from that queue. */
  lemma OwnGrows(f: Fw, t: Tid, to: Place, c: nat)
    requires c < |f.own| && PlaceOf(f, t) != Ready(Own(c))
    ensures f.own[c] <= ChangeState(f, t, to).own[c]
  {
  }

  /** A move neither out of nor into a local queue leaves that queue alone. */
  lemma OwnSame(f: Fw, t: Tid, to: Place, c: nat)
    requires c < |f.own| && PlaceOf(f, t) != Ready(Own(c)) && to != Ready(Own(c))
    ensures ChangeState(f, t, to).own[c] == f.own[c]
  {
  }

  lemma SharedSame(f: Fw, t: Tid, to: Place)
    requires PlaceOf(f, t) != Ready(Shared) && to != Ready(Shared)
    ensures ChangeState(f, t, to).shared == f.shared
  {
  }

  /** Starting the head of a local queue leaves the rest of it. */
  lemma OwnTaken(f: Fw, c: nat)
    requires Wf(f) && c < |f.own| && f.own[c] != []
    ensures var g := ChangeState(f, f.own[c][0], Running(c));
            g.own[c] == f.own[c][1..] && g.current[c] == Some(f.own[c][0])
  {
    assert QueueOk(f.place, f.own[c], Ready(Own(c))) && f.own[c][0] in f.own[c];
    WithoutFacts(f.own[c], f.own[c][0]);
  }

  // ---------------------------------------------------------------- what a move leaves behind

  /** `r` is the queue `q` less `t`, if `t` leaves it, and with `t` at its tail, if `t` joins it. */
  ghost predicate QueueAfter(q: seq<Tid>, r: seq<Tid>, t: Tid, leaves: bool, joins: bool) {
    if leaves
    then exists k :: 0 <= k < |q| && q[k] == t && r == q[..k] + q[k + 1..] + if joins then [t] else []
    else r == q + if joins then [t] else []
  }

  /** From `f` to `g` the task `t` moved to `to`, behind all that wait there, and nothing else changed. */
  ghost predicate OnlyMoved(f: Fw, g: Fw, t: Tid, to: Place) {
    && g.place == f.place[t := to] && |g.own| == |f.own| && |g.current| == |f.current|
    && g.cpu == (if to.Migrating? then f.cpu[t := to.core] else f.cpu)
    && QueueAfter(f.shared, g.shared, t, PlaceOf(f, t) == Ready(Shared), to == Ready(Shared))
    && (forall c: nat :: c < |f.own| ==>
          QueueAfter(f.own[c], g.own[c], t, PlaceOf(f, t) == Ready(Own(c)), to == Ready(Own(c))))
    && forall c: nat :: c < |f.current| ==>
         g.current[c] ==
           if to == Running(c) then Some(t) else if PlaceOf(f, t) == Running(c) then None else f.current[c]
  }

  lemma QueueMoved(place: map<Tid, Place>, q: seq<Tid>, p: Place, t: Tid, to: Place)
    requires QueueOk(place, q, p) && t in place
    ensures QueueAfter(q, Moved(q, p, t, place[t], to), t, place[t] == p, to == p)
  {
    if place[t] == p {
      var k := IndexOf(q, t);
      WithoutAt(q, k);
      assert q[..k] + q[k + 1..] + [] == q[..k] + q[k + 1..];
    } else {
      assert q + [] == q;
    }
  }

  lemma ChangeStateMeans(f: Fw, t: Tid, to: Place)
    requires Wf(f) && t in f.place
    ensures OnlyMoved(f, ChangeState(f, t, to), t, to)
  {
    var g := ChangeState(f, t, to);
    QueueMoved(f.place, f.shared, Ready(Shared), t, to);
    forall c: nat | c < |f.own|
      ensures QueueAfter(f.own[c], g.own[c], t, f.place[t] == Ready(Own(c)), to == Ready(Own(c)))
    {
      QueueMoved(f.place, f.own[c], Ready(Own(c)), t, to);
    }
  }

  /** The current tasks once `t` runs nowhere. */
  function NotRunning(current: seq<Option<Tid>>, t: Tid): seq<Option<Tid>> {
    seq(|current|, c requires 0 <= c < |current| => if current[c] == Some(t) then None else current[c])
  }

  /** What a schedule of core `c` leaves: its local head runs, else the global head if that is its own. */
  ghost predicate StartedHere(f: Fw, g: Fw, c: nat)
    requires c < |f.own| == |f.current|
  {
    if f.own[c] != [] then
      && g.current == f.current[c := Some(f.own[c][0])] && g.own == f.own[c := f.own[c][1..]] && g.shared == f.shared
      && g.place == f.place[f.own[c][0] := Running(c)] && g.cpu == f.cpu
    else if f.shared != [] && f.shared[0] in f.cpu && f.cpu[f.shared[0]] == c then
      && g.current == f.current[c := Some(f.shared[0])] && g.own == f.own && g.shared == f.shared[1..]
      && g.place == f.place[f.shared[0] := Running(c)] && g.cpu == f.cpu
    else g == f
  }

  /** What a pull by core `c` leaves: the global head at the tail of its local queue, as its own. */
  ghost predicate PulledHere(f: Fw, g: Fw, c: nat)
    requires c < |f.own|
  {
    if f.shared == [] then g == f
    else
      var t := f.shared[0];
      && g.shared == f.shared[1..] && g.own == f.own[c := f.own[c] + [t]] && g.current == f.current
      && g.place == f.place[t := Ready(Own(c))] && g.cpu == f.cpu[t := c]
  }

  /** The task `t`, in no queue before, is at the tail of the global queue and runs nowhere. */
  ghost predicate QueuedLast(f: Fw, g: Fw, t: Tid) {
    && g.shared == f.shared + [t] && g.own == f.own && g.current == NotRunning(f.current, t)
    && g.place == f.place[t := Ready(Shared)] && g.cpu == f.cpu
  }

  /** The task `t` is blocked or ended: it is in no queue and runs nowhere. */
  ghost predicate TakenAway(f: Fw, g: Fw, t: Tid, to: Place) {
    && g.place == f.place[t := to] && g.cpu == f.cpu && g.own == f.own && g.current == NotRunning(f.current, t)
    && QueueAfter(f.shared, g.shared, t, PlaceOf(f, t) == Ready(Shared), false)
  }

  lemma CurrentMoved(f: Fw, t: Tid, to: Place)
    requires Wf(f) && t in f.place && !to.Running?
    ensures ChangeState(f, t, to).current == NotRunning(f.current, t)
  {
    forall c: nat | c < |f.current| ensures ChangeState(f, t, to).current[c] == NotRunning(f.current, t)[c] {
      assert SlotOk(f.place, f.current[c], c);
    }
  }

  lemma OwnUnmoved(f: Fw, t: Tid, to: Place)
    requires Wf(f) && t in f.place && forall c: nat :: f.place[t] != Ready(Own(c)) && to != Ready(Own(c))
    ensures ChangeState(f, t, to).own == f.own
  {
  }

  lemma QueuedLastMeans(f: Fw, t: Tid)
    requires Wf(f) && t in f.place && !f.place[t].Ready?
    ensures QueuedLast(f, ChangeState(f, t, Ready(Shared)), t)
  {
    CurrentMoved(f, t, Ready(Shared));
    OwnUnmoved(f, t, Ready(Shared));
  }

  /** The task `t`, which was nowhere, is at the tail of the global queue and belongs to `cpu`. */
  ghost predicate BornLast(f: Fw, g: Fw, t: Tid, cpu: nat) {
    && g.shared == f.shared + [t] && g.own == f.own && g.current == f.current
    && g.place == f.place[t := Ready(Shared)] && g.cpu == f.cpu[t := cpu]
  }

  /** A task that is not running is no core's current task. */
  lemma NoneRuns(f: Fw, t: Tid)
    requires Wf(f) && (t in f.place ==> !f.place[t].Running?)
    ensures NotRunning(f.current, t) == f.current
  {
    forall c: nat | c < |f.current| ensures f.current[c] != Some(t) {
      assert SlotOk(f.place, f.current[c], c);
    }
  }

  /** A task on its way from a sleep is nowhere. */
  lemma Wakes(f: Fw, t: Tid)
    requires Wf(f) && t in f.place && f.place[t] == Blocked
    ensures ChangeState(f, t, NotQueued) == f.(place := f.place[t := NotQueued])
  {
    OwnUnmoved(f, t, NotQueued);
    CurrentMoved(f, t, NotQueued);
    NoneRuns(f, t);
  }

  lemma BornLastMeans(f: Fw, t: Tid, cpu: nat)
    requires Wf(f) && Unused(f, t)
    ensures BornLast(f, ChangeState(Create(f, t, cpu), t, Ready(Shared)), t, cpu)
  {
    CreateWf(f, t, cpu);
    QueuedLastMeans(Create(f, t, cpu), t);
    NoneRuns(f, t);
  }

  lemma TakenAwayMeans(f: Fw, t: Tid, to: Place)
    requires Wf(f) && t in f.place && to in {Blocked, Terminated} && forall c: nat :: f.place[t] != Ready(Own(c))
    ensures TakenAway(f, ChangeState(f, t, to), t, to)
  {
    CurrentMoved(f, t, to);
    OwnUnmoved(f, t, to);
    QueueMoved(f.place, f.shared, Ready(Shared), t, to);
  }

  // ---------------------------------------------------------------- with every task on a core of the machine

  /** The records are in order, and every task has a CPU of the machine. */
  ghost predicate Sound(f: Fw) {
    Wf(f) && forall t <- f.place :: t in f.cpu && f.cpu[t] < |f.own|
  }

  lemma ChangeStateSound(f: Fw, t: Tid, to: Place)
    requires Sound(f) && t in f.place && Fits(|f.own|, to)
    requires to.Running? ==> f.current[to.core] in {None, Some(t)}
    ensures Sound(ChangeState(f, t, to))
  {
    ChangeStateWf(f, t, to);
  }

  // ---------------------------------------------------------------- schedule over a global and a local queue

  /** Both global-queue policies: the local head starts, else the global head if it belongs to this core. */
  function Picked(f: Fw, c: nat): Fw {
    if c < |f.own| && f.own[c] != [] then ChangeState(f, f.own[c][0], Running(c))
    else if f.shared != [] && CpuOf(f, f.shared[0]) == c then ChangeState(f, f.shared[0], Running(c))
    else f
  }

  lemma PickedSound(f: Fw, c: nat)
    requires Sound(f) && c < |f.own| && f.current[c] == None
    ensures Sound(Picked(f, c))
  {
    if f.own[c] != [] {
      assert f.own[c][0] in f.own[c] && QueueOk(f.place, f.own[c], Ready(Own(c)));
      ChangeStateSound(f, f.own[c][0], Running(c));
    } else if f.shared != [] {
      assert f.shared[0] in f.shared && QueueOk(f.place, f.shared, Ready(Shared));
      ChangeStateSound(f, f.shared[0], Running(c));
    }
  }

  lemma LocalHeadStarts(f: Fw, c: nat)
    requires Wf(f) && c < |f.own| && f.own[c] != [] && f.current[c] == None
    ensures StartedHere(f, ChangeState(f, f.own[c][0], Running(c)), c)
  {
    var t, g := f.own[c][0], ChangeState(f, f.own[c][0], Running(c));
    assert t in f.own[c] && QueueOk(f.place, f.own[c], Ready(Own(c)));
    OwnTaken(f, c);
    assert g.own == f.own[c := f.own[c][1..]];
    assert g.current == f.current[c := Some(t)];
  }

  lemma GlobalHeadStarts(f: Fw, c: nat)
    requires Wf(f) && c < |f.own| && f.own[c] == [] && f.current[c] == None
    requires f.shared != [] && f.shared[0] in f.cpu && f.cpu[f.shared[0]] == c
    ensures StartedHere(f, ChangeState(f, f.shared[0], Running(c)), c)
  {
    var t, g := f.shared[0], ChangeState(f, f.shared[0], Running(c));
    assert t in f.shared && QueueOk(f.place, f.shared, Ready(Shared));
    WithoutFacts(f.shared, t);
    OwnUnmoved(f, t, Running(c));
    assert g.current == f.current[c := Some(t)];
  }

  lemma PickedMeans(f: Fw, c: nat)
    requires Sound(f) && c < |f.own| && f.current[c] == None
    ensures StartedHere(f, Picked(f, c), c)
  {
    if f.own[c] != [] {
      LocalHeadStarts(f, c);
    } else if f.shared != [] {
      assert f.shared[0] in f.shared && QueueOk(f.place, f.shared, Ready(Shared));
      if f.cpu[f.shared[0]] == c {
        GlobalHeadStarts(f, c);
      }
    }
  }

  /** The global head put into the local queue of core `c`, directly. */
  lemma HeadComesHere(f: Fw, t: Tid, c: nat)
    requires Wf(f) && c < |f.own| && f.shared != [] && t == f.shared[0]
    ensures var g := ChangeState(f, t, Ready(Own(c)));
            && g.shared == f.shared[1..] && g.own == f.own[c := f.own[c] + [t]] && g.current == f.current
            && g.place == f.place[t := Ready(Own(c))] && g.cpu == f.cpu
  {
    var g := ChangeState(f, t, Ready(Own(c)));
    assert t in f.shared && QueueOk(f.place, f.shared, Ready(Shared));
    WithoutFacts(f.shared, t);
    assert g.own == f.own[c := f.own[c] + [t]];
    assert g.current == f.current;
  }

  /** Put there by way of a place that is in no queue and on no core. */
  lemma HeadComesBy(f: Fw, t: Tid, via: Place, c: nat)
    requires Wf(f) && c < |f.own| && f.shared != [] && t == f.shared[0] && (via == Migrating(c) || via == Held(c))
    ensures var g := ChangeState(f, t, via);
            && g.shared == f.shared[1..] && g.own == f.own && g.current == f.current
            && g.place == f.place[t := via] && g.cpu == if via.Migrating? then f.cpu[t := c] else f.cpu
  {
    var g := ChangeState(f, t, via);
    assert t in f.shared && QueueOk(f.place, f.shared, Ready(Shared));
    WithoutFacts(f.shared, t);
    OwnUnmoved(f, t, via);
    assert g.current == f.current;
  }

  /** A task in no queue and on no core put into the local queue of core `c`. */
  lemma JoinsHere(f: Fw, t: Tid, c: nat)
    requires c < |f.own| && t in f.place && (f.place[t].Migrating? || f.place[t].Held?)
    ensures var g := ChangeState(f, t, Ready(Own(c)));
            && g.shared == f.shared && g.own == f.own[c := f.own[c] + [t]] && g.current == f.current
            && g.place == f.place[t := Ready(Own(c))] && g.cpu == f.cpu
  {
    var g := ChangeState(f, t, Ready(Own(c)));
    assert g.own == f.own[c := f.own[c] + [t]];
    assert g.current == f.current;
  }
}
