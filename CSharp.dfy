/**
 * The parts of C# integer arithmetic the host software relies on, written out
 * over Dafny's unbounded integers: byte and short casts, division and remainder
 * that truncate toward zero, Math.Clamp and Math.Round (ties to even).
 */
module CSharp {

  /** An unsigned 8-bit value, the C# `byte`. */
  type byte = x: int | 0 <= x < 256

  /** A signed 16-bit value, the C# `short`. */
  type int16 = x: int | -0x8000 <= x < 0x8000

  function Abs(x: int): (r: nat)
    ensures r == x || r == -x
  {
    if x < 0 then -x else x
  }

  /** `(byte)x`: keeps the low 8 bits of the two's-complement representation. */
  function ToByte(x: int): (b: byte)
    ensures (x - b) % 256 == 0
    ensures 0 <= x < 256 ==> b == x
  {
    x % 256
  }

  /** `(short)x`: keeps the low 16 bits and reads them as two's complement. */
  function ToInt16(x: int): (s: int16)
    ensures (x - s) % 0x1_0000 == 0
    ensures -0x8000 <= x < 0x8000 ==> s == x
  {
    var m := x % 0x1_0000;
    if m < 0x8000 then m else m - 0x1_0000
  }

  /** C# `a / b` for a positive divisor: the quotient rounded toward zero. */
  function Div(a: int, b: int): (q: int)
    requires b > 0
    ensures a >= 0 ==> q == a / b
    ensures Abs(q) == Abs(a) / b
  {
    var m := Abs(a) / b;
    assert Abs(a) == if a >= 0 then a else -a;
    assert 0 <= m by { DivNonNeg(Abs(a), b); }
    if a >= 0 then m else -m
  }

  lemma DivNonNeg(n: int, b: int)
    requires n >= 0 && b > 0
    ensures n / b >= 0
  {
  }

  /** C# `a % b` for a positive divisor: the remainder takes the sign of `a`. */
  function Rem(a: int, b: int): (r: int)
    requires b > 0
    ensures a >= 0 ==> r == a % b
    ensures -b < r < b
    ensures r != 0 ==> (r < 0 <==> a < 0)
  {
    if a >= 0 then a % b else -((-a) % b)
  }

  /** Truncating division and remainder still recompose the dividend. */
  lemma DivRem(a: int, b: int)
    requires b > 0
    ensures Div(a, b) * b + Rem(a, b) == a
  {
    if a < 0 {
      var q, r := (-a) / b, (-a) % b;
      assert q * b + r == -a;
      assert Div(a, b) * b == -(q * b);
    }
  }

  /** `Math.Clamp(x, lo, hi)`. */
  function Clamp(x: int, lo: int, hi: int): (r: int)
    requires lo <= hi
    ensures lo <= r <= hi
    ensures lo <= x <= hi ==> r == x
    ensures x < lo ==> r == lo
    ensures x > hi ==> r == hi
  {
    if x < lo then lo else if x > hi then hi else x
  }

  /**
   * `Math.Round(n / d)` for `d > 0`, computed exactly: the nearest integer,
   * and on a tie the even one (.NET's default MidpointRounding.ToEven).
   */
  function RoundHalfEven(n: int, d: int): (r: int)
    requires d > 0
    ensures 2 * Abs(n - r * d) <= d
    ensures 2 * Abs(n - r * d) == d ==> r % 2 == 0
  {
    var q, m := n / d, n % d;
    assert n == q * d + m;
    assert (q + 1) * d == q * d + d;
    if 2 * m < d then q
    else if 2 * m > d then q + 1
    else if q % 2 == 0 then q
    else q + 1
  }

  /** Rounding is unique: an integer strictly within half a step of n / d is the rounded value. */
  lemma RoundHalfEvenNearest(n: int, d: int, k: int)
    requires d > 0
    requires 2 * Abs(n - k * d) < d
    ensures RoundHalfEven(n, d) == k
  {
    WithinHalfUnique(n, d, RoundHalfEven(n, d), k);
  }

  /** Two integers within half a step of n / d, one of them strictly, are the same integer. */
  lemma WithinHalfUnique(n: int, d: int, r: int, k: int)
    requires d > 0
    requires 2 * Abs(n - r * d) <= d && 2 * Abs(n - k * d) < d
    ensures r == k
  {
    var a, b := n - r * d, n - k * d;
    assert a - b == (k - r) * d;
    assert Abs(a - b) <= Abs(a) + Abs(b);
    if r != k {
      AtLeastOneStep(k - r, d);
    }
  }

  lemma AtLeastOneStep(x: int, d: int)
    requires d > 0 && x != 0
    ensures Abs(x * d) >= d
  {
    if x > 0 {
      MulAtLeast(x, d);
    } else {
      MulAtLeast(-x, d);
      assert x * d == -((-x) * d);
    }
  }

  /** A positive multiple of `d` is at least `d`. */
  lemma {:induction false} MulAtLeast(x: int, d: int)
    requires x >= 1 && d > 0
    ensures x * d >= d
    decreases x
  {
    if x > 1 {
      MulAtLeast(x - 1, d);
      assert x * d == (x - 1) * d + d;
    }
  }

  /** Rounding keeps a quotient that lies between two integers between them. */
  lemma RoundHalfEvenBounds(n: int, d: int, lo: int, hi: int)
    requires d > 0 && lo * d <= n <= hi * d
    ensures lo <= RoundHalfEven(n, d) <= hi
  {
    WithinHalfBetween(n, d, RoundHalfEven(n, d), lo, hi);
  }

  /** An integer within half a step of n / d lies between any two integers that n / d lies between. */
  lemma WithinHalfBetween(n: int, d: int, r: int, lo: int, hi: int)
    requires d > 0 && lo * d <= n <= hi * d
    requires 2 * Abs(n - r * d) <= d
    ensures lo <= r <= hi
  {
    assert (lo - r) * d == lo * d - r * d;
    assert (r - hi) * d == r * d - hi * d;
    if r < lo {
      MulAtLeast(lo - r, d);
    } else if r > hi {
      MulAtLeast(r - hi, d);
    }
  }
}
