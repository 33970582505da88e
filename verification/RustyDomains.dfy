/**
 The cyclic domain scan of `task_pick_domain`, within one call and over consecutive calls, as
 functions with their laws.
 */
module RustyDomains {
  import opened Words

  const MAX_DOMS: nat := 64

  // ---------------------------------------------------------------- the scan

  /** The domain looked at in round `k`, for a 32-bit counter `start` and `n` domains. */
  function Visit(start: int, n: int, k: int): int
    requires n > 0
  {
    ((start + 1) % TWO32 + k) % n
  }

  predicate Meets(doms: seq<set<int>>, allowed: set<int>, d: int) {
    0 <= d < |doms| && doms[d] * allowed != {}
  }

  function MetDomains(doms: seq<set<int>>, allowed: set<int>): (met: set<int>)
    ensures forall d :: d in met <==> 0 <= d < |doms| && doms[d] * allowed != {}
  {
    set d | 0 <= d < |doms| && Meets(doms, allowed, d)
  }

  /** Domains that meet the affinity among the first `k` visited. */
  function MetBefore(doms: seq<set<int>>, allowed: set<int>, start: int, k: nat): set<int>
    requires |doms| > 0
  {
    set i | 0 <= i < k && Meets(doms, allowed, Visit(start, |doms|, i)) :: Visit(start, |doms|, i)
  }

  lemma ModUnique(x: int, n: int, q: int, r: int)
    requires n > 0 && x == q * n + r && 0 <= r < n
    ensures x % n == r
  {
    var e := x / n - q;
    assert e * n == r - x % n;
  }

  lemma ModStep(x: int, n: int)
    requires n > 0
    ensures (x % n + 1) % n == (x + 1) % n
  {
    var q, r := x / n, x % n;
    if r + 1 < n {
      ModUnique(x + 1, n, q, r + 1);
      ModUnique(r + 1, n, 0, r + 1);
    } else {
      assert x + 1 == (q + 1) * n;
      ModUnique(x + 1, n, q + 1, 0);
      ModUnique(r + 1, n, 1, 0);
    }
  }

  lemma VisitNext(f: int, n: int, i: int)
    requires n > 0
    ensures 0 <= (f + i - 1) % n < n && ((f + i - 1) % n + 1) % n == (f + i) % n
  {
    ModStep(f + i - 1, n);
  }

  lemma SmallWord(x: int)
    requires 0 <= x < TWO32
    ensures x % TWO32 == x
  {
  }

  /** The first domain looked at is the one the stepped counter names, and each round goes to the next one. */
  lemma VisitsInOrder(start: int, n: int, k: int)
    requires n > 0 && k >= 0
    ensures Visit(start, n, 0) == ((start + 1) % TWO32) % n
    ensures Visit(start, n, k + 1) == (Visit(start, n, k) + 1) % n
  {
    ModStep((start + 1) % TWO32 + k, n);
  }

  /** Two rounds less than `n` apart never look at the same domain. */
  lemma ModApart(x: int, y: int, n: int)
    requires n > 0 && 0 < y - x < n
    ensures x % n != y % n
  {
    var e := y / n - x / n;
    assert e * n == (y - y % n) - (x - x % n);
  }

  /** The round in which domain `d` is looked at. */
  function RoundOf(start: int, n: int, d: int): int
    requires n > 0
  {
    (d - (start + 1) % TWO32) % n
  }

  /** The scan looks at every domain exactly once. */
  lemma ScanIsPermutation(start: int, n: int, d: int)
    requires n > 0 && 0 <= d < n
    ensures 0 <= RoundOf(start, n, d) < n && Visit(start, n, RoundOf(start, n, d)) == d
    ensures forall k :: 0 <= k < n && Visit(start, n, k) == d ==> k == RoundOf(start, n, d)
  {
    var f := (start + 1) % TWO32;
    var k := RoundOf(start, n, d);
    var q := (d - f) / n;
    assert d - f == q * n + k;
    ModUnique(f + k, n, -q, d);
    forall j | 0 <= j < n && Visit(start, n, j) == d ensures j == k {
      if j < k {
        ModApart(f + j, f + k, n);
      } else if k < j {
        ModApart(f + k, f + j, n);
      }
    }
  }

  /** After all rounds the domain mask is exactly the set of domains meeting the affinity. */
  lemma ScanMask(doms: seq<set<int>>, allowed: set<int>, start: int)
    requires |doms| > 0
    ensures MetBefore(doms, allowed, start, |doms|) == MetDomains(doms, allowed)
  {
    var n := |doms|;
    forall d | 0 <= d < n && Meets(doms, allowed, d) ensures d in MetBefore(doms, allowed, start, n) {
      ScanIsPermutation(start, n, d);
      assert Meets(doms, allowed, Visit(start, n, RoundOf(start, n, d)));
    }
  }

  // ---------------------------------------------------------------- consecutive calls

  /** The domain the `j`-th of several consecutive calls picks for a task allowed everywhere. */
  function Pick(start: int, n: int, j: int): int
    requires n > 0
  {
    Visit((start + j) % TWO32, n, 0)
  }

  /** The counter does not pass 2^32 between the first and the last of the calls, or passes it without a jump. */
  predicate Smooth(start: int, n: int)
    requires n > 0
  {
    start + 1 == TWO32 || start + n < TWO32 || TWO32 % n == 0
  }

  ghost predicate PicksDiffer(start: int, n: int)
    requires n > 0
  {
    forall i, j :: 0 <= i < j < n ==> Pick(start, n, i) != Pick(start, n, j)
  }

  lemma PickPlain(start: int, n: int, j: int)
    requires n > 0 && 0 <= start < TWO32 && 0 <= j < n <= TWO32
    ensures Pick(start, n, j) == if start + j + 1 < TWO32 then (start + j + 1) % n else (start + j + 1 - TWO32) % n
  {
    var x := start + j;
    if x + 1 < TWO32 {
      SmallWord(x);
      SmallWord(x + 1);
    } else if x < TWO32 {
      SmallWord(x);
      WrappedWord(x + 1);
    } else {
      WrappedWord(x);
      SmallWord(x - TWO32 + 1);
    }
  }

  lemma WrappedWord(x: int)
    requires TWO32 <= x < 2 * TWO32
    ensures x % TWO32 == x - TWO32
  {
  }

  lemma SmoothDiffers(start: int, n: int, i: int, j: int)
    requires 0 < n <= MAX_DOMS && 0 <= start < TWO32 && Smooth(start, n) && 0 <= i < j < n
    ensures Pick(start, n, i) != Pick(start, n, j)
  {
    PickPlain(start, n, i);
    PickPlain(start, n, j);
    var a, b := start + i + 1, start + j + 1;
    if b < TWO32 {
      ModApart(a, b, n);
    } else if a >= TWO32 {
      ModApart(a - TWO32, b - TWO32, n);
    } else {
      ModShift(b, TWO32, n);
      ModApart(a, b, n);
    }
  }

  /** `n` consecutive calls on one CPU pick `n` different domains exactly when the counter does not jump. */
  lemma RoundRobin(start: int, n: int)
    requires 0 < n <= MAX_DOMS && 0 <= start < TWO32
    ensures PicksDiffer(start, n) <==> Smooth(start, n)
  {
    if Smooth(start, n) {
      forall i, j | 0 <= i < j < n ensures Pick(start, n, i) != Pick(start, n, j) {
        SmoothDiffers(start, n, i, j);
      }
    } else {
      JumpRepeats(start, n);
    }
  }

  /** Three domains, and a counter two short of 2^32: two calls in a row pick domain 0. */
  lemma RoundRepeats()
    ensures !Smooth(TWO32 - 2, 3) && Pick(TWO32 - 2, 3, 0) == Pick(TWO32 - 2, 3, 1) == 0
  {
  }

  lemma ModShift(b: int, m: int, n: int)
    requires n > 0 && m % n == 0
    ensures (b - m) % n == b % n
  {
    var q, c := m / n, b / n;
    assert m == q * n && b == c * n + b % n;
    ModUnique(b - m, n, c - q, b % n);
  }

  lemma JumpRepeats(start: int, n: int)
    requires 0 < n <= MAX_DOMS && 0 <= start < TWO32 && !Smooth(start, n)
    ensures !PicksDiffer(start, n)
  {
    var r := TWO32 % n;
    var j0 := TWO32 - (start + 1);
    assert 0 < r < n && 0 < j0 < n;
    if r >= j0 {
      JumpFrom(start, n, 0, r);
    } else {
      JumpFrom(start, n, j0 - r, j0);
    }
  }

  /** Round `j` lands beyond 2^32 on the domain that round `i` found before it. */
  lemma JumpFrom(start: int, n: int, i: int, j: int)
    requires 0 < n <= MAX_DOMS && 0 <= start && 0 <= i < j < n
    requires start + i + 1 < TWO32 <= start + j + 1 < TWO32 + n && j - i == TWO32 % n
    ensures Pick(start, n, i) == Pick(start, n, j)
  {
    PickPlain(start, n, i);
    PickPlain(start, n, j);
    ModBack(start + i + 1, TWO32, n);
  }

  /** Going forward by the remainder of `m` is going back by the rest of `m`. */
  lemma ModBack(a: int, m: int, n: int)
    requires n > 0
    ensures a % n == (a + m % n - m) % n
  {
    var q := m / n;
    assert m == q * n + m % n;
    ModUnique(a - q * n, n, a / n - q, a % n);
  }
}
