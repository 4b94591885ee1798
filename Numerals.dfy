/**
 * Positional rendering and parsing of integers, as BigInt's `toString(base)`
 * and the decimal `BigInt(string)` constructor do them, plus `padStart`.
 */
module Numerals {
  import opened Wrappers
  import opened Bits

  /** The character of the digit d. */
  function DigitChar(d: nat): (c: char)
    requires d < 10
    ensures DigitValue(c) == d && IsDigit(c, d + 1)
  {
    ('0' as int + d) as char
  }

  /** The value of a digit character (0 for any other character). */
  function DigitValue(c: char): nat
  {
    if '0' <= c <= '9' then c as int - '0' as int else 0
  }

  /** Whether c is a digit of the given base. */
  predicate IsDigit(c: char, base: nat)
  {
    '0' <= c <= '9' && c as int - '0' as int < base
  }

  predicate AllDigits(s: string, base: nat)
  {
    forall i :: 0 <= i < |s| ==> IsDigit(s[i], base)
  }

  /** `n.toString(base)` for a non-negative n: no leading zeros, "0" for zero. */
  function Render(n: nat, base: nat): (s: string)
    requires 2 <= base <= 10
    ensures |s| >= 1 && AllDigits(s, base)
    ensures s[0] == '0' ==> n == 0
    decreases n
  {
    if n < base then [DigitChar(n)]
    else
      QuotientBounds(n, base);
      Render(n / base, base) + [DigitChar(n % base)]
  }

  lemma QuotientBounds(n: nat, base: nat)
    requires 2 <= base <= n
    ensures 1 <= n / base < n && n % base < base
    ensures n == (n / base) * base + n % base
  {
    var q, r := n / base, n % base;
    assert n == base * q + r;
    MulMonotone(base, 2, q);
  }

  /** Multiplying by a non-negative factor keeps an inequality. */
  lemma {:induction false} MulMonotone(a: int, b: int, c: nat)
    requires a >= b
    ensures a * c >= b * c
    decreases c
  {
    if c > 0 {
      MulMonotone(a, b, c - 1);
      assert a * c == a * (c - 1) + a;
      assert b * c == b * (c - 1) + b;
    }
  }

  /** The value of a digit string read most significant digit first (0 for the empty string). */
  function DigitsValue(s: string, base: nat): nat
  {
    if |s| == 0 then 0
    else DigitsValue(s[..|s| - 1], base) * base + DigitValue(s[|s| - 1])
  }

  /** Parse a non-empty string of digits of the given base; anything else is rejected. */
  function Parse(s: string, base: nat): (r: Option<nat>)
    ensures r.Some? <==> |s| > 0 && AllDigits(s, base)
  {
    if |s| > 0 && AllDigits(s, base) then Some(DigitsValue(s, base)) else None
  }

  /** BigInt's `toString()` in base 10: a leading '-' exactly for a negative value. */
  function IntToString(n: int): (s: string)
    ensures |s| >= 1
    ensures s[0] == '-' <==> n < 0
  {
    if n < 0 then "-" + Render(-n, 10)
    else
      var d := Render(n, 10);
      assert IsDigit(d[0], 10);
      d
  }

  /** `s.padStart(width, c)`: prefix copies of c until s is at least `width` long. */
  function PadStart(s: string, width: nat, c: char): (r: string)
    ensures |r| == if |s| >= width then |s| else width
    ensures r[|r| - |s|..] == s
    ensures forall i :: 0 <= i < |r| - |s| ==> r[i] == c
  {
    if |s| >= width then s else seq(width - |s|, _ => c) + s
  }

  /** Reading a rendered number gives the number back. */
  lemma {:induction false} RenderValue(n: nat, base: nat)
    requires 2 <= base <= 10
    ensures DigitsValue(Render(n, base), base) == n
    decreases n
  {
    if n >= base {
      QuotientBounds(n, base);
      RenderValue(n / base, base);
      DigitsValueSnoc(Render(n / base, base), DigitChar(n % base), base);
    }
  }

  lemma DigitsValueSnoc(s: string, c: char, base: nat)
    ensures DigitsValue(s + [c], base) == DigitsValue(s, base) * base + DigitValue(c)
  {
    assert (s + [c])[..|s|] == s;
  }

  /** Base-10 round trip: parsing the string of a non-negative number gives the number. */
  lemma DecimalRoundTrip(n: nat)
    ensures Parse(IntToString(n), 10) == Some(n)
  {
    RenderValue(n, 10);
  }

  /** Distinct integers have distinct decimal strings. */
  lemma IntToStringInjective(a: int, b: int)
    requires IntToString(a) == IntToString(b)
    ensures a == b
  {
    if a < 0 && b < 0 {
      var s := IntToString(a);
      assert Render(-a, 10) == s[1..] == Render(-b, 10);
      RenderInjective(-a, -b);
    } else if a >= 0 && b >= 0 {
      RenderInjective(a, b);
    }
  }

  /** Distinct numbers have distinct decimal renderings. */
  lemma RenderInjective(m: nat, n: nat)
    requires Render(m, 10) == Render(n, 10)
    ensures m == n
  {
    RenderValue(m, 10);
    RenderValue(n, 10);
  }

  /** Leading zeros do not change the value of a digit string. */
  lemma {:induction false} LeadingZeros(k: nat, s: string, base: nat)
    ensures DigitsValue(seq(k, _ => '0') + s, base) == DigitsValue(s, base)
    decreases |s|, k
  {
    var z := seq(k, _ => '0');
    if |s| == 0 {
      assert z + s == z;
      if k > 0 {
        assert z[..k - 1] == seq(k - 1, _ => '0');
        LeadingZeros(k - 1, [], base);
        assert seq(k - 1, _ => '0') + [] == seq(k - 1, _ => '0');
      }
    } else {
      var init := s[..|s| - 1];
      assert (z + s)[..|z + s| - 1] == z + init;
      LeadingZeros(k, init, base);
    }
  }

  /** A rendering in base 2 fits in k characters exactly when the number is below 2^k. */
  lemma {:induction false} Base2Width(n: nat, k: nat)
    requires k >= 1
    ensures |Render(n, 2)| <= k <==> n < Pow2(k)
    decreases n
  {
    if n >= 2 {
      assert |Render(n, 2)| == |Render(n / 2, 2)| + 1;
      if k == 1 {
        assert Pow2(1) == 2;
      } else {
        Base2Width(n / 2, k - 1);
        assert n / 2 < Pow2(k - 1) <==> n < 2 * Pow2(k - 1);
      }
    } else {
      assert Pow2(k) >= 2 by {
        assert Pow2(k) == 2 * Pow2(k - 1);
      }
    }
  }
}
