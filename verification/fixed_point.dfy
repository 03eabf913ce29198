/** 8.8 fixed-point conversions and the small integer helpers of the simulation
    (game.h fixed-point macros; game.c Clamp, Abs, AbsW). */
module FixedPoint {

  /** Number of fractional bits of a fixed-point value. */
  const FP_SHIFT: nat := 8

  /** One whole unit in fixed point: 1 << FP_SHIFT. */
  const FP_ONE: int := 256

  /** INT_TO_FP: a left shift by eight bits. */
  function IntToFp(n: int): (r: int)
    ensures r % FP_ONE == 0
    ensures r / FP_ONE == n
  {
    n * 256
  }

  /** FP_TO_INT: an arithmetic right shift by eight bits, i.e. the floor of v / 256
      (it rounds towards minus infinity for negative values). */
  function FpToInt(v: int): (r: int)
    ensures r * FP_ONE <= v < r * FP_ONE + FP_ONE
  {
    v / 256
  }

  /** Absolute value (Abs for LONG and AbsW for WORD behave alike on unbounded integers). */
  function Abs(x: int): (r: int)
    ensures r >= 0
    ensures r == x || r == -x
  {
    if x < 0 then -x else x
  }

  /** Clamp: tests the lower bound first, then the upper bound. */
  function Clamp(value: int, lo: int, hi: int): (r: int)
    ensures lo <= hi ==> lo <= r <= hi
    ensures lo <= value <= hi ==> r == value
    ensures value < lo ==> r == lo
    ensures lo <= value && hi < value ==> r == hi
  {
    if value < lo then lo
    else if value > hi then hi
    else value
  }

  /** C's integer division by a positive divisor, which truncates towards zero:
      the remainder a - q * b is smaller than b in magnitude and has the sign of
      the dividend (C99 section 6.5.5). */
  function TruncDiv(a: int, b: int): (q: int)
    requires b > 0
    ensures a >= 0 ==> 0 <= a - q * b < b
    ensures a < 0 ==> -b < a - q * b <= 0
  {
    if a >= 0 then a / b
    else
      var m := (-a) / b;
      assert -a == m * b + (-a) % b;
      assert (-m) * b == -(m * b);
      -m
  }

  /** k * b >= b for every k >= 1 and b > 0. */
  lemma MulAtLeast(k: int, b: int)
    requires k >= 1 && b > 0
    ensures k * b >= b
  {
    assert k * b == (k - 1) * b + b;
    assert (k - 1) * b >= 0;
  }

  /** The truncated quotient is unique: any q with its remainder properties is TruncDiv(a, b). */
  lemma TruncDivUnique(a: int, b: int, q: int)
    requires b > 0
    requires a >= 0 ==> 0 <= a - q * b < b
    requires a < 0 ==> -b < a - q * b <= 0
    ensures q == TruncDiv(a, b)
  {
    var t := TruncDiv(a, b);
    assert (a - t * b) - (a - q * b) == (q - t) * b;
    if q > t {
      MulAtLeast(q - t, b);
    } else if q < t {
      MulAtLeast(t - q, b);
    }
  }

  /** Truncation is symmetric about zero, unlike Dafny's division. */
  lemma TruncDivNegate(a: int, b: int)
    requires b > 0
    ensures TruncDiv(-a, b) == -TruncDiv(a, b)
  {
    var q := TruncDiv(a, b);
    var r := a - q * b;
    assert (-q) * b == -(q * b);
    assert -a - (-q) * b == -r;
    if a == 0 {
      assert q == 0;
    }
    TruncDivUnique(-a, b, -q);
  }

  /** An exact multiple divides exactly under truncation. */
  lemma TruncDivExact(k: int, b: int)
    requires b > 0
    ensures TruncDiv(k * b, b) == k
  {
    assert k * b - k * b == 0;
    TruncDivUnique(k * b, b, k);
  }

  /** FP_TO_INT undoes INT_TO_FP. */
  lemma FpRoundTrip(n: int)
    ensures FpToInt(IntToFp(n)) == n
  {
  }

  /** FP_ONE is the fixed-point image of one. */
  lemma FpOneIsIntToFpOne()
    ensures IntToFp(1) == FP_ONE
    ensures FP_ONE == 256
  {
  }

  /** FP_TO_INT is monotone. */
  lemma FpToIntMonotone(u: int, v: int)
    requires u <= v
    ensures FpToInt(u) <= FpToInt(v)
  {
  }
}
