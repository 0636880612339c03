/** Kotlin's fixed-width integers on the JVM: `Int` (32-bit) and `Long` (64-bit),
    two's-complement, with wrap-around on overflow and division truncating toward zero. */
module Numeric {

  const IntModulus: int := 0x1_0000_0000
  const MinInt: int := -0x8000_0000
  const MaxInt: int := 0x7FFF_FFFF

  const LongModulus: int := 0x1_0000_0000_0000_0000
  const MinLong: int := -0x8000_0000_0000_0000
  const MaxLong: int := 0x7FFF_FFFF_FFFF_FFFF

  /** A value of Kotlin type `Int`. */
  type Int32 = x: int | -0x8000_0000 <= x <= 0x7FFF_FFFF

  /** A value of Kotlin type `Long` (timestamps in milliseconds since the epoch). */
  type Int64 = x: int | -0x8000_0000_0000_0000 <= x <= 0x7FFF_FFFF_FFFF_FFFF

  /** The 32-bit two's-complement value congruent to `x`: what an `Int` operation
      or a `Long.toInt()` keeps of an out-of-range mathematical result. */
  function Wrap32(x: int): (r: Int32)
    ensures (x - r) % IntModulus == 0
    ensures MinInt <= x <= MaxInt ==> r == x
  {
    var r := (x - MinInt) % IntModulus + MinInt;
    assert x - r == IntModulus * ((x - MinInt) / IntModulus);
    r
  }

  /** The 64-bit two's-complement value congruent to `x`. */
  function Wrap64(x: int): (r: Int64)
    ensures (x - r) % LongModulus == 0
    ensures MinLong <= x <= MaxLong ==> r == x
  {
    var r := (x - MinLong) % LongModulus + MinLong;
    assert x - r == LongModulus * ((x - MinLong) / LongModulus);
    r
  }

  /** Kotlin `Int * Int`. */
  function IntTimes(a: Int32, b: Int32): (r: Int32)
    ensures MinInt <= a * b <= MaxInt ==> r == a * b
  {
    Wrap32(a * b)
  }

  /** Kotlin `Long + Long` (an `Int` operand is widened first, which is exact). */
  function LongPlus(a: Int64, b: Int64): (r: Int64)
    ensures MinLong <= a + b <= MaxLong ==> r == a + b
  {
    Wrap64(a + b)
  }

  /** Kotlin `Long - Long`. */
  function LongMinus(a: Int64, b: Int64): (r: Int64)
    ensures MinLong <= a - b <= MaxLong ==> r == a - b
  {
    Wrap64(a - b)
  }

  /** Kotlin `Long * Long`. */
  function LongTimes(a: Int64, b: Int64): (r: Int64)
    ensures MinLong <= a * b <= MaxLong ==> r == a * b
  {
    Wrap64(a * b)
  }

  /** Kotlin `Long.toInt()`: keeps the low 32 bits. */
  function LongToInt(x: Int64): (r: Int32)
    ensures MinInt <= x <= MaxInt ==> r == x
  {
    Wrap32(x)
  }

  /** JVM integer division by a positive divisor: the quotient is truncated toward
      zero, so the remainder takes the sign of the dividend. (Dafny's own `/` is
      Euclidean and rounds negative quotients down instead.) */
  function TruncDiv(a: int, b: int): (q: int)
    requires b > 0
    ensures 0 <= a ==> 0 <= a - q * b < b
    ensures a < 0 ==> -b < a - q * b <= 0
    ensures 0 <= a ==> 0 <= q <= a
    ensures a < 0 ==> a <= q <= 0
  {
    if a >= 0 then
      DivBounds(a, b);
      a / b
    else
      DivBounds(-a, b);
      NegTimes((-a) / b, b);
      -((-a) / b)
  }

  /** Quotient and remainder of a non-negative number by a positive one. */
  lemma DivBounds(a: int, b: int)
    requires 0 <= a && 0 < b
    ensures 0 <= a / b <= a
    ensures 0 <= a - a / b * b < b
  {
    DivNonNegative(a, b);
    DivAtMost(a, b);
    assert a == a / b * b + a % b;
  }

  lemma NegTimes(x: int, y: int)
    ensures (-x) * y == -(x * y)
  {
  }

  lemma DivNonNegative(a: int, b: int)
    requires 0 <= a && 0 < b
    ensures 0 <= a / b
  {
  }

  lemma DivAtMost(a: int, b: int)
    requires 0 <= a && 0 < b
    ensures a / b <= a
  {
    var q := a / b;
    assert q * b + a % b == a;
    assert 0 <= q;
    MulNonNegative(q, b - 1);
    assert q * b == q * (b - 1) + q;
  }

  lemma MulAtLeast(k: int, b: int)
    requires 1 <= k && 0 < b
    ensures k * b >= b
  {
    MulNonNegative(k - 1, b);
    assert k * b == (k - 1) * b + b;
  }

  lemma MulNonNegative(x: int, y: int)
    requires 0 <= x && 0 <= y
    ensures 0 <= x * y
  {
  }

  /** The quotient of a `Long` by a positive divisor is again a `Long`. */
  function LongDiv(a: Int64, b: Int64): (q: Int64)
    requires b > 0
    ensures q == TruncDiv(a, b)
  {
    TruncDiv(a, b)
  }

  /** Truncation is determined by the remainder's bounds: any `q` whose remainder
      lies on the dividend's side of zero and is smaller than the divisor is the
      truncated quotient. */
  lemma {:induction false} TruncDivUnique(a: int, b: int, q: int)
    requires b > 0
    requires 0 <= a ==> 0 <= a - q * b < b
    requires a < 0 ==> -b < a - q * b <= 0
    ensures q == TruncDiv(a, b)
  {
    var t := TruncDiv(a, b);
    if q < t {
      MulAtLeast(t - q, b);
      assert false;
    } else if q > t {
      MulAtLeast(q - t, b);
      assert false;
    }
  }
}
