/** Queues of distinct tasks, as sequences. */
module Queues {

  type Tid = nat

  datatype Option<+T> = None | Some(value: T)

  ghost predicate NoDups(q: seq<Tid>) {
    forall i, j :: 0 <= i < j < |q| ==> q[i] != q[j]
  }

  /** `q` less its first occurrence of `t`. */
  function Without(q: seq<Tid>, t: Tid): seq<Tid> {
    if q == [] then [] else if q[0] == t then q[1..] else [q[0]] + Without(q[1..], t)
  }

  lemma ConsFacts(a: Tid, r: seq<Tid>)
    requires a !in r && NoDups(r)
    ensures NoDups([a] + r)
    ensures forall x :: x in [a] + r <==> x == a || x in r
  {
    var q := [a] + r;
    forall i, j | 0 <= i < j < |q| ensures q[i] != q[j] {
      assert q[j] == r[j - 1];
      if i > 0 {
        assert q[i] == r[i - 1];
      }
    }
  }

  lemma SnocFacts(r: seq<Tid>, a: Tid)
    requires a !in r && NoDups(r)
    ensures NoDups(r + [a])
    ensures forall x :: x in r + [a] <==> x == a || x in r
  {
  }

  lemma TailFacts(q: seq<Tid>)
    requires q != [] && NoDups(q)
    ensures NoDups(q[1..]) && q[0] !in q[1..]
    ensures q == [q[0]] + q[1..]
    ensures forall x :: x in q <==> x == q[0] || x in q[1..]
  {
    assert q == [q[0]] + q[1..];
  }

  lemma {:induction false} WithoutFacts(q: seq<Tid>, t: Tid)
    requires NoDups(q)
    ensures NoDups(Without(q, t))
    ensures forall x :: x in Without(q, t) <==> x in q && x != t
    ensures q != [] && q[0] == t ==> Without(q, t) == q[1..]
  {
    if q != [] {
      TailFacts(q);
      WithoutFacts(q[1..], t);
      if q[0] != t {
        ConsFacts(q[0], Without(q[1..], t));
      }
    }
  }

  /** Removing a task keeps the others in their order: it cuts out exactly its own position. */
  lemma {:induction false} WithoutAt(q: seq<Tid>, k: nat)
    requires NoDups(q) && k < |q|
    ensures Without(q, q[k]) == q[..k] + q[k + 1..]
  {
    if k > 0 {
      TailFacts(q);
      WithoutAt(q[1..], k - 1);
      assert q[1..][k - 1] == q[k];
      assert [q[0]] + (q[1..][..k - 1] + q[1..][k..]) == q[..k] + q[k + 1..];
    }
  }

  lemma {:induction false} WithoutAbsent(q: seq<Tid>, t: Tid)
    requires t !in q
    ensures Without(q, t) == q
  {
    if q != [] {
      WithoutAbsent(q[1..], t);
      assert q == [q[0]] + q[1..];
    }
  }

  function IndexOf(q: seq<Tid>, t: Tid): (k: nat)
    requires t in q
    ensures k < |q| && q[k] == t
  {
    if q[0] == t then 0 else 1 + IndexOf(q[1..], t)
  }

  function Sum(xs: seq<nat>): nat {
    if xs == [] then 0 else xs[0] + Sum(xs[1..])
  }

  lemma {:induction false} SumUpdate(xs: seq<nat>, i: nat, x: nat)
    requires i < |xs|
    ensures Sum(xs[i := x]) == Sum(xs) - xs[i] + x
  {
    if i == 0 {
      assert xs[0 := x][1..] == xs[1..];
    } else {
      SumUpdate(xs[1..], i - 1, x);
      assert xs[i := x][1..] == xs[1..][i - 1 := x];
    }
  }
}
