/**
 * Java `int` arithmetic: 32-bit two's complement wrap-around, division that
 * truncates toward zero and the arithmetic right shift.
 */
module JavaInt {
  const MinInt: int := -0x8000_0000
  const MaxInt: int := 0x7FFF_FFFF
  const Modulus: int := 0x1_0000_0000

  type Int32 = x: int | MinInt <= x <= MaxInt

  /** The value a Java `int` holds after a computation whose exact result is `x`: x moved into range by multiples of 2^32. */
  function Wrap(x: int): (r: Int32)
    decreases if x > MaxInt then x - MaxInt else if x < MinInt then MinInt - x else 0
  {
    if x > MaxInt then Wrap(x - Modulus) else if x < MinInt then Wrap(x + Modulus) else x
  }

  /** The wrapped value differs from x by the multiple of 2^32 that Euclidean division picks. */
  lemma {:induction false} WrapQuotient(x: int)
    ensures MinInt <= x <= MaxInt ==> Wrap(x) == x
    ensures Wrap(x) == x - ((x - MinInt) / Modulus) * Modulus
    decreases if x > MaxInt then x - MaxInt else if x < MinInt then MinInt - x else 0
  {
    if x > MaxInt {
      WrapQuotient(x - Modulus);
      DivUnique(x - MinInt, (x - Modulus - MinInt) / Modulus + 1, (x - Modulus - MinInt) % Modulus);
    } else if x < MinInt {
      WrapQuotient(x + Modulus);
      DivUnique(x - MinInt, (x + Modulus - MinInt) / Modulus - 1, (x + Modulus - MinInt) % Modulus);
    } else {
      DivUnique(x - MinInt, 0, x - MinInt);
    }
  }

  function Add(a: Int32, b: Int32): Int32 { Wrap(a + b) }
  function Sub(a: Int32, b: Int32): Int32 { Wrap(a - b) }
  function Mul(a: Int32, b: Int32): Int32 { Wrap(a * b) }
  function Neg(a: Int32): Int32 { Wrap(-(a as int)) }

  /** Division rounding toward zero on unbounded integers: the magnitude is |a| / |b|, the sign that of a * b. */
  function TruncDiv(a: int, b: int): (q: int)
    requires b != 0
    ensures Abs(q) == Abs(a) / Abs(b)
    ensures q == 0 || ((q < 0) <==> ((a < 0) != (b < 0)))
  {
    var m := Abs(a) / Abs(b);
    assert m >= 0 by { DivNonNegative(Abs(a), Abs(b)); }
    if (a < 0) == (b < 0) then m else -m
  }

  lemma DivNonNegative(x: nat, y: nat)
    requires y > 0
    ensures x / y >= 0
  {
  }

  /** Java's `a / b` on `int` (the only overflow is MinInt / -1). */
  function Div(a: Int32, b: Int32): Int32
    requires b != 0
  {
    Wrap(TruncDiv(a, b))
  }

  /** Java's `a >> n` on `int` (sign-propagating): rounds toward negative infinity. */
  function ShiftRight(a: Int32, n: nat): (r: Int32)
    ensures r * Pow2(n) <= a < r * Pow2(n) + Pow2(n)
  {
    Pow2Positive(n);
    a / Pow2(n)
  }

  function Abs(x: int): nat { if x < 0 then -x else x }

  function Pow2(n: nat): (p: int)
  {
    if n == 0 then 1 else 2 * Pow2(n - 1)
  }

  lemma {:induction false} Pow2Positive(n: nat)
    ensures Pow2(n) >= 1
  {
    if n > 0 { Pow2Positive(n - 1); }
  }

  /** Wrapping is compatible with addition: intermediate wraps do not change a sum's final value. */
  lemma WrapAddLeft(a: int, b: int)
    ensures Wrap(Wrap(a) + b) == Wrap(a + b)
  {
    var k := -((a - MinInt) / Modulus);
    WrapQuotient(a);
    assert Wrap(a) + b == (a + b) + k * Modulus;
    WrapShift(a + b, k);
  }

  /** Java's `a + b + c` on `int` is the exact sum wrapped once. */
  lemma AddThree(a: Int32, b: Int32, c: Int32)
    ensures Add(Add(a, b), c) == Wrap(a + b + c)
  {
    WrapAddLeft(a + b, c);
  }

  /** Java's `a + b + c + d` on `int` is the exact sum wrapped once. */
  lemma AddFour(a: Int32, b: Int32, c: Int32, d: Int32)
    ensures Add(Add(Add(a, b), c), d) == Wrap(a + b + c + d)
  {
    AddThree(a, b, c);
    WrapAddLeft(a + b + c, d);
  }

  /** Wrapping is compatible with multiplication. */
  lemma WrapMulLeft(a: int, b: int)
    ensures Wrap(Wrap(a) * b) == Wrap(a * b)
  {
    var k := -((a - MinInt) / Modulus);
    WrapQuotient(a);
    assert Wrap(a) == a + k * Modulus;
    Distribute(a, k, b);
    WrapShift(a * b, k * b);
  }

  lemma Distribute(a: int, k: int, b: int)
    ensures (a + k * Modulus) * b == a * b + (k * b) * Modulus
  {
    assert (a + k * Modulus) * b == a * b + k * Modulus * b;
  }

  /** Adding a multiple of 2^32 does not change the wrapped value. */
  lemma WrapShift(x: int, k: int)
    ensures Wrap(x + k * Modulus) == Wrap(x)
  {
    var q := (x - MinInt) / Modulus;
    var r := (x - MinInt) % Modulus;
    WrapQuotient(x);
    WrapQuotient(x + k * Modulus);
    assert x + k * Modulus - MinInt == (q + k) * Modulus + r;
    DivUnique(x + k * Modulus - MinInt, q + k, r);
  }

  /** Euclidean division by 2^32 is unique. */
  lemma DivUnique(y: int, q: int, r: int)
    requires y == q * Modulus + r && 0 <= r < Modulus
    ensures y / Modulus == q
  {
  }

  /** A non-negative quotient is no larger than its dividend, and 0 when the divisor exceeds it. */
  lemma QuotientBounds(x: nat, y: int)
    requires y >= 1
    ensures 0 <= x / y <= x
    ensures x < y ==> x / y == 0
  {
    var q, r := x / y, x % y;
    assert x == y * q + r && 0 <= r < y;
    if q < 0 {
      ProductBelow(y, q);
      assert false;
    }
    ProductAbove(y, q);
    if x < y && q >= 1 {
      ProductAbove(y, q - 1);
      assert false;
    }
  }

  /** A negative multiple of a positive y is at most -y. */
  lemma ProductBelow(y: int, q: int)
    requires y >= 1 && q < 0
    ensures y * q <= -y
  {
    assert y * q + y == y * (q + 1);
    ProductAbove(y, -(q + 1));
    assert y * (-(q + 1)) == -(y * (q + 1));
  }

  /** A non-negative multiple of a positive y is at least the multiplier and at least y when non-zero. */
  lemma ProductAbove(y: int, q: int)
    requires y >= 1 && q >= 0
    ensures y * q >= q && (q >= 1 ==> y * q >= y)
  {
    assert y * q - q == (y - 1) * q;
    assert y * q - y == y * (q - 1);
  }
}
