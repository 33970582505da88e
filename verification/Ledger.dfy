/**
 A ledger of a queue over a whole run.  Every arrival gets the next ticket; a ticket leaves
 the queue at its head, or is dropped from anywhere.  The law says that, at any moment, the
 tickets that left followed by the tickets still waiting are all the arrivals in order, less
 the dropped ones: nothing overtakes and nothing is lost.
 */
module Ledgers {
  import opened Queues

  datatype Ledger = Ledger(arrived: seq<Tid>, left: seq<nat>, waiting: seq<nat>, dropped: set<nat>)

  const EMPTY: Ledger := Ledger([], [], [], {})

  function Arrive(l: Ledger, t: Tid): Ledger {
    l.(arrived := l.arrived + [t], waiting := l.waiting + [|l.arrived|])
  }

  function Leave(l: Ledger): Ledger {
    if l.waiting == [] then l
    else l.(left := l.left + [l.waiting[0]], waiting := l.waiting[1..])
  }

  function Withdraw(l: Ledger, k: nat): Ledger {
    if k >= |l.waiting| then l
    else l.(waiting := l.waiting[..k] + l.waiting[k + 1..], dropped := l.dropped + {l.waiting[k]})
  }

  /** The tickets below `n` in order, less the dropped ones. */
  function Survivors(n: nat, dropped: set<nat>): seq<nat> {
    if n == 0 then []
    else if n - 1 in dropped then Survivors(n - 1, dropped)
    else Survivors(n - 1, dropped) + [n - 1]
  }

  /** The ledger law, and that the waiting tickets are those of the tasks in the queue `q`. */
  ghost predicate Lawful(l: Ledger, q: seq<Tid>) {
    && l.left + l.waiting == Survivors(|l.arrived|, l.dropped)
    && |l.waiting| == |q|
    && (forall k <- l.dropped :: k < |l.arrived|)
    && forall i :: 0 <= i < |q| ==> l.waiting[i] < |l.arrived| && l.arrived[l.waiting[i]] == q[i]
  }

  lemma {:induction false} SurvivorsBelow(n: nat, dropped: set<nat>)
    ensures forall k <- Survivors(n, dropped) :: k < n && k !in dropped
    ensures NoDups(Survivors(n, dropped))
    ensures forall i, j :: 0 <= i < j < |Survivors(n, dropped)| ==> Survivors(n, dropped)[i] < Survivors(n, dropped)[j]
  {
    if n > 0 {
      SurvivorsBelow(n - 1, dropped);
      var r := Survivors(n - 1, dropped);
      assert forall i :: 0 <= i < |r| ==> r[i] in r;
    }
  }

  lemma {:induction false} SurvivorsSame(n: nat, d: set<nat>, e: set<nat>)
    requires forall k: nat :: k < n ==> (k in d <==> k in e)
    ensures Survivors(n, d) == Survivors(n, e)
  {
    if n > 0 {
      SurvivorsSame(n - 1, d, e);
    }
  }

  lemma {:induction false} WithoutSnoc(q: seq<Tid>, a: Tid, k: Tid)
    requires a !in q && NoDups(q)
    ensures Without(q + [a], k) == if k == a then q else Without(q, k) + [a]
  {
    if q == [] {
      assert [a] == [a] + [];
    } else {
      assert (q + [a])[1..] == q[1..] + [a];
      TailFacts(q);
      WithoutSnoc(q[1..], a, k);
      if k == a {
        assert q == [q[0]] + q[1..];
      }
    }
  }

  lemma {:induction false} SurvivorsDrop(n: nat, d: set<nat>, k: nat)
    requires k < n && k !in d
    ensures Survivors(n, d + {k}) == Without(Survivors(n, d), k)
  {
    SurvivorsBelow(n - 1, d);
    if k == n - 1 {
      SurvivorsSame(n - 1, d, d + {k});
      WithoutSnoc(Survivors(n - 1, d), k, k);
    } else {
      SurvivorsDrop(n - 1, d, k);
      assert n - 1 in d + {k} <==> n - 1 in d;
      var r, e := Survivors(n - 1, d), Survivors(n - 1, d + {k});
      if n - 1 !in d {
        WithoutSnoc(r, n - 1, k);
        assert Survivors(n, d) == r + [n - 1];
        assert Survivors(n, d + {k}) == e + [n - 1];
      } else {
        assert Survivors(n, d) == r && Survivors(n, d + {k}) == e;
      }
    }
  }

  lemma ArriveLawful(l: Ledger, q: seq<Tid>, t: Tid)
    requires Lawful(l, q)
    ensures Lawful(Arrive(l, t), q + [t])
  {
    var n := |l.arrived|;
    assert l.left + (l.waiting + [n]) == Survivors(n, l.dropped) + [n];
  }

  lemma LeaveLawful(l: Ledger, q: seq<Tid>)
    requires Lawful(l, q) && q != []
    ensures Lawful(Leave(l), q[1..])
    ensures Leave(l).left == l.left + [l.waiting[0]] && l.arrived[l.waiting[0]] == q[0]
  {
    assert l.left + [l.waiting[0]] + l.waiting[1..] == l.left + l.waiting;
  }

  /** Taking the ticket at `i` out of the survivors leaves the survivors of one more drop. */
  lemma SurvivorsCut(n: nat, d: set<nat>, i: nat)
    requires i < |Survivors(n, d)|
    ensures var all := Survivors(n, d);
            all[i] < n && all[..i] + all[i + 1..] == Survivors(n, d + {all[i]})
  {
    var all := Survivors(n, d);
    assert all[i] in all;
    SurvivorsBelow(n, d);
    SurvivorsDrop(n, d, all[i]);
    WithoutAt(all, i);
  }

  lemma CutTail(a: seq<nat>, b: seq<nat>, k: nat)
    requires k < |b|
    ensures var all, i := a + b, |a| + k;
            all[i] == b[k] && all[..i] + all[i + 1..] == a + (b[..k] + b[k + 1..])
  {
    var all, i := a + b, |a| + k;
    assert all[..i] == a + b[..k] && all[i + 1..] == b[k + 1..];
  }

  /** Taking a ticket out of those waiting takes it out of all the survivors. */
  lemma WithdrawSurvivors(l: Ledger, n: nat, k: nat)
    requires l.left + l.waiting == Survivors(n, l.dropped) && k < |l.waiting|
    ensures l.waiting[k] < n
    ensures l.left + (l.waiting[..k] + l.waiting[k + 1..]) == Survivors(n, l.dropped + {l.waiting[k]})
  {
    SurvivorsCut(n, l.dropped, |l.left| + k);
    CutTail(l.left, l.waiting, k);
  }

  lemma WithdrawLawful(l: Ledger, q: seq<Tid>, k: nat)
    requires Lawful(l, q) && k < |q|
    ensures Lawful(Withdraw(l, k), q[..k] + q[k + 1..])
  {
    WithdrawSurvivors(l, |l.arrived|, k);
  }

  /** What the law means for two tickets: the earlier one, unless dropped, is never overtaken. */
  lemma NoOvertaking(l: Ledger, q: seq<Tid>, a: nat, b: nat)
    requires Lawful(l, q)
    requires a < b < |l.arrived| && a !in l.dropped && b in l.left
    ensures a in l.left
    ensures exists i, j :: 0 <= i < j < |l.left| && l.left[i] == a && l.left[j] == b
  {
    var all := Survivors(|l.arrived|, l.dropped);
    SurvivorsBelow(|l.arrived|, l.dropped);
    SurvivorsAll(|l.arrived|, l.dropped, a);
    var i :| 0 <= i < |all| && all[i] == a;
    var j :| 0 <= j < |l.left| && l.left[j] == b;
    assert all[j] == b;
    assert i < j;
    assert l.left[i] == a;
  }

  lemma {:induction false} SurvivorsAll(n: nat, d: set<nat>, k: nat)
    requires k < n && k !in d
    ensures k in Survivors(n, d)
  {
    if k < n - 1 {
      SurvivorsAll(n - 1, d, k);
    }
  }

  /** What one step may do to a ledger. */
  ghost predicate Follows(l: Ledger, m: Ledger) {
    || m == l
    || (exists t :: m == Arrive(l, t))
    || (l.waiting != [] && m == Leave(l))
    || (exists k :: 0 <= k < |l.waiting| && m == Withdraw(l, k))
  }

  /** The ticket has left as one of the first `turn` to leave, was dropped, or still waits for such a turn. */
  ghost predicate InTurn(l: Ledger, ticket: nat, turn: nat) {
    || ticket in l.dropped
    || ticket in l.left[..if turn < |l.left| then turn else |l.left|]
    || exists j :: 0 <= j < |l.waiting| && l.waiting[j] == ticket && |l.left| + j < turn
  }

  /** A waiting ticket never loses its turn: every step that is not its own moves it forward or leaves it. */
  lemma TurnKept(l: Ledger, m: Ledger, ticket: nat, turn: nat)
    requires Follows(l, m) && InTurn(l, ticket, turn)
    ensures InTurn(m, ticket, turn)
    ensures |l.left| <= |m.left| && l.arrived <= m.arrived
  {
    var cut := if turn < |l.left| then turn else |l.left|;
    if ticket in l.left[..cut] {
      var i :| 0 <= i < cut && l.left[i] == ticket;
      assert m.left[i] == ticket;
      assert ticket in m.left[..if turn < |m.left| then turn else |m.left|];
    } else if ticket !in l.dropped {
      var j :| 0 <= j < |l.waiting| && l.waiting[j] == ticket && |l.left| + j < turn;
      WaitingTurnKept(l, m, ticket, turn, j);
    }
  }

  lemma WaitingTurnKept(l: Ledger, m: Ledger, ticket: nat, turn: nat, j: nat)
    requires Follows(l, m) && j < |l.waiting| && l.waiting[j] == ticket && |l.left| + j < turn
    ensures InTurn(m, ticket, turn)
  {
    if l.waiting != [] && m == Leave(l) {
      if j == 0 {
        assert m.left[|l.left|] == ticket;
        assert ticket in m.left[..if turn < |m.left| then turn else |m.left|];
      } else {
        assert m.waiting[j - 1] == ticket;
      }
    } else if k :| 0 <= k < |l.waiting| && m == Withdraw(l, k) {
      if j < k {
        assert m.waiting[j] == ticket;
      } else if j > k {
        assert m.waiting[j - 1] == ticket;
      }
    } else {
      assert m.waiting[j] == ticket;
    }
  }

  /** Once that many have left, the ticket is among them, unless it was dropped. */
  lemma TurnComes(l: Ledger, ticket: nat, turn: nat)
    requires InTurn(l, ticket, turn) && turn <= |l.left|
    ensures ticket in l.dropped || ticket in l.left[..turn]
  {
  }
}
