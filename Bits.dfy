/**
 * Exact integer models of the BigInt bit operations the snowflake codec uses:
 * `<<`, `>>`, `&` and `|`. Shifts are multiplication and floor division by a
 * power of two; `&` and `|` are defined bit by bit (two's complement on the
 * left operand, which may be negative), and then proved equal to the
 * arithmetic forms the proofs use.
 */
module Bits {

  /** 2 to the power k. */
  function Pow2(k: nat): (r: nat)
    ensures r >= 1
  {
    if k == 0 then 1 else 2 * Pow2(k - 1)
  }

  /** BigInt `x << k`: the low k bits are clear, and shifting back right undoes it. */
  function Shl(x: int, k: nat): (r: int)
    ensures r % Pow2(k) == 0 && Shr(r, k) == x
  {
    DivModUnique(x * Pow2(k), Pow2(k), x, 0);
    x * Pow2(k)
  }

  /**
   * BigInt `x >> k`: an arithmetic shift, which rounds towards minus
   * infinity, negative values included.
   */
  function Shr(x: int, k: nat): (r: int)
    ensures r * Pow2(k) <= x < r * Pow2(k) + Pow2(k)
  {
    x / Pow2(k)
  }

  /** BigInt `a & b` for a non-negative `b`, one bit at a time from the least significant. */
  function And(a: int, b: nat): (r: nat)
    ensures r <= b
    decreases b
  {
    if b == 0 then 0
    else 2 * And(a / 2, b / 2) + (if a % 2 == 1 && b % 2 == 1 then 1 else 0)
  }

  /**
   * BigInt `a | b` for a non-negative `b`, one bit at a time from the least
   * significant. It only sets bits and never carries, so it lies between a
   * and a + b.
   */
  function Or(a: int, b: nat): (r: int)
    ensures a <= r <= a + b
    decreases b
  {
    if b == 0 then a
    else 2 * Or(a / 2, b / 2) + (if a % 2 == 1 || b % 2 == 1 then 1 else 0)
  }

  /** Euclidean division is determined by any quotient/remainder pair with the remainder in range. */
  lemma DivModUnique(x: int, d: int, q: int, r: int)
    requires d > 0 && 0 <= r < d && x == d * q + r
    ensures x / d == q && x % d == r
  {
    var q0, r0 := x / d, x % d;
    var k := q0 - q;
    assert d * k == r - r0 by {
      assert x == d * q0 + r0;
      assert d * q0 - d * q == d * k;
    }
    if k > 0 {
      MulAtLeast(d, k);
    } else if k < 0 {
      MulAtLeast(d, -k);
    }
  }

  lemma MulAtLeast(d: int, k: int)
    requires d > 0 && k >= 1
    ensures d * k >= d
  {
    assert d * k == d + d * (k - 1);
  }

  lemma {:induction false} Pow2Add(a: nat, b: nat)
    ensures Pow2(a + b) == Pow2(a) * Pow2(b)
  {
    if a > 0 {
      Pow2Add(a - 1, b);
    }
  }

  /** The particular powers of two the codec's shifts and masks rely on. */
  lemma Pow2Constants()
    ensures Pow2(5) == 32 && Pow2(12) == 4096 && Pow2(17) == 131072 && Pow2(22) == 4194304
    ensures Pow2(41) == 2199023255552 && Pow2(63) == 9223372036854775808
    ensures Pow2(64) == 18446744073709551616
  {
    assert Pow2(5) == 32;
    Pow2Add(5, 5);
    Pow2Add(10, 2);
    Pow2Add(12, 5);
    Pow2Add(17, 5);
    Pow2Add(22, 19);
    Pow2Add(17, 2);
    Pow2Add(41, 22);
  }

  /** Masking with `2^k - 1` keeps exactly the remainder modulo `2^k`. */
  lemma {:induction false} AndLowMask(x: int, k: nat)
    decreases k
    ensures And(x, Pow2(k) - 1) == x % Pow2(k)
  {
    if k > 0 {
      var m := Pow2(k - 1);
      AndLowMask(x / 2, k - 1);
      AndLowMaskStep(x, m, And(x / 2, m - 1));
    }
  }

  /** One more bit of mask: from `m - 1` on the half of x to `2 * m - 1` on x. */
  lemma AndLowMaskStep(x: int, m: nat, half: nat)
    requires m >= 1 && half == And(x / 2, m - 1) && half == (x / 2) % m
    ensures And(x, 2 * m - 1) == x % (2 * m)
  {
    AndOddMask(x, m);
    ModOfDouble(x, m);
  }

  /** One step of `And` against a mask whose lowest bit is set. */
  lemma AndOddMask(x: int, m: nat)
    requires m >= 1
    ensures And(x, 2 * m - 1) == 2 * And(x / 2, m - 1) + x % 2
  {
    DivModUnique(2 * m - 1, 2, m - 1, 1);
  }

  /** The remainder modulo `2 * m` splits into the lowest bit and the remainder of the half modulo `m`. */
  lemma ModOfDouble(x: int, m: nat)
    requires m > 0
    ensures x % (2 * m) == 2 * ((x / 2) % m) + x % 2
  {
    var h, lo := x / 2, x % 2;
    var q, r := h / m, h % m;
    assert x == 2 * h + lo;
    assert h == m * q + r;
    assert x == (2 * m) * q + (2 * r + lo);
    DivModUnique(x, 2 * m, q, 2 * r + lo);
  }

  /** A multiple of `2 * m` is even and its half is a multiple of `m`. */
  lemma HalfOfMultiple(a: int, m: nat)
    requires m > 0 && a % (2 * m) == 0
    ensures a % 2 == 0 && (a / 2) % m == 0
  {
    var q := a / (2 * m);
    assert a == 2 * (m * q);
    DivModUnique(a, 2, m * q, 0);
    DivModUnique(m * q, m, q, 0);
  }

  /**
   * When the low k bits of `a` are clear and `b` fits in k bits the two
   * operands share no set bit, so OR-ing them is adding them.
   */
  lemma {:induction false} OrDisjoint(a: int, b: nat, k: nat)
    requires a % Pow2(k) == 0 && b < Pow2(k)
    ensures Or(a, b) == a + b
    decreases k
  {
    if b != 0 {
      assert k > 0;
      var m := Pow2(k - 1);
      HalfOfMultiple(a, m);
      OrDisjoint(a / 2, b / 2, k - 1);
    }
  }
}
