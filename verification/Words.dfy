/** Machine words: 32- and 64-bit unsigned numbers, and the remainders they are made of. */
module Words {

  const TWO32: int := 0x1_0000_0000
  const TWO63: int := 0x8000_0000_0000_0000
  const TWO64: int := 0x1_0000_0000_0000_0000

  type U64 = x: int | 0 <= x < TWO64

  /** Adds one, back to 0 after the last number. */
  function Inc(x: U64): U64 {
    if x + 1 == TWO64 then 0 else x + 1
  }

  lemma ModIs(x: int, q: int, r: int)
    requires x == TWO64 * q + r && 0 <= r < TWO64
    ensures x % TWO64 == r
  {
  }

  /** Numbers less than one turn away from 0. */
  lemma ModNear(d: int)
    requires -TWO64 <= d < TWO64
    ensures d % TWO64 == if d < 0 then d + TWO64 else d
  {
    if d < 0 {
      ModIs(d, -1, d + TWO64);
    } else {
      ModIs(d, 0, d);
    }
  }

  lemma ModAdd(a: int, c: int)
    ensures (a % TWO64 + c) % TWO64 == (a + c) % TWO64
  {
    var q, r := (a + c) / TWO64, (a + c) % TWO64;
    ModIs(a % TWO64 + c, q - a / TWO64, r);
  }

  lemma ModSub(a: int, b: int)
    ensures (a % TWO64 - b % TWO64) % TWO64 == (a - b) % TWO64
  {
    var q, r := (a - b) / TWO64, (a - b) % TWO64;
    ModIs(a % TWO64 - b % TWO64, q - a / TWO64 + b / TWO64, r);
  }

  lemma ModNeg(x: int)
    ensures (-x) % TWO64 == if x % TWO64 == 0 then 0 else TWO64 - x % TWO64
  {
    var q, r := x / TWO64, x % TWO64;
    if r == 0 {
      ModIs(-x, -q, 0);
    } else {
      ModIs(-x, -q - 1, TWO64 - r);
    }
  }

  lemma WordEquality(a: int, b: int)
    ensures a % TWO64 == b % TWO64 <==> (b - a) % TWO64 == 0
  {
    ModSub(b, a);
    ModNear(b % TWO64 - a % TWO64);
  }

  lemma IncIs(n: int)
    ensures Inc(n % TWO64) == (n + 1) % TWO64
  {
    ModAdd(n, 1);
    if n % TWO64 + 1 == TWO64 {
      ModIs(TWO64, 1, 0);
    } else {
      ModNear(n % TWO64 + 1);
    }
  }

  /** Whole turns do not matter. */
  lemma ModTurn(x: int, k: int)
    ensures (x + TWO64 * k) % TWO64 == x % TWO64
  {
    ModIs(x + TWO64 * k, x / TWO64 + k, x % TWO64);
  }

  /** The word read as a signed number. */
  function Signed(x: U64): int {
    if x < TWO63 then x else x - TWO64
  }

  /** It is the only number of half a turn at most, either way, that the word holds. */
  lemma SignedIs(x: int)
    ensures -TWO63 <= Signed(x % TWO64) < TWO63 && Signed(x % TWO64) % TWO64 == x % TWO64
    ensures -TWO63 <= x < TWO63 ==> Signed(x % TWO64) == x
  {
    ModNear(Signed(x % TWO64));
    if -TWO63 <= x < TWO63 {
      ModNear(x);
    }
  }
}
