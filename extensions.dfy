/**
 * Numeric extension helpers of the dynamic module
 * (`core/shared/Extensions.kt`): interpolation, clamping, range mapping,
 * rounding and guarded division.
 */
module Extensions {
  import opened Numerics

  /** `lerp(start, end, fraction)`. */
  function Lerp(start: real, end: real, fraction: real): (r: real)
    ensures fraction == 0.0 ==> r == start
    ensures fraction == 1.0 ==> r == end
    ensures 0.0 <= fraction <= 1.0 ==> Min(start, end) <= r <= Max(start, end)
  {
    LerpBetween(start, end, fraction);
    start + (end - start) * fraction
  }

  lemma LerpBetween(start: real, end: real, fraction: real)
    ensures 0.0 <= fraction <= 1.0 ==>
      Min(start, end) <= start + (end - start) * fraction <= Max(start, end)
  {
    if 0.0 <= fraction <= 1.0 {
      var d := end - start;
      assert d * fraction == d - d * (1.0 - fraction);
      if start <= end {
        MulNonNeg(d, fraction);
        MulNonNeg(d, 1.0 - fraction);
      } else {
        MulNonNeg(-d, fraction);
        MulNonNeg(-d, 1.0 - fraction);
      }
    }
  }

  lemma MulNonNeg(a: real, b: real)
    requires a >= 0.0 && b >= 0.0
    ensures a * b >= 0.0
  {
  }

  /** `Float.isInRange(min, max)`: the inclusive range test. */
  function IsInRange(x: real, min: real, max: real): (b: bool)
    ensures b ==> min <= max
    ensures b <==> Abs(2.0 * x - (min + max)) <= max - min
  {
    x >= min && x <= max
  }

  /** `clamp(value, min, max)`: below `min` gives `min`, above `max` gives `max`. */
  function Clamp(value: real, min: real, max: real): (r: real)
    ensures min <= max ==> IsInRange(r, min, max)
    ensures IsInRange(value, min, max) ==> r == value
    ensures r == value || r == min || r == max
  {
    if value < min then min
    else if value > max then max
    else value
  }

  /** Clamping a second time changes nothing, and a clamp is the identity exactly on the range. */
  lemma ClampIdempotent(value: real, min: real, max: real)
    requires min <= max
    ensures Clamp(Clamp(value, min, max), min, max) == Clamp(value, min, max)
    ensures Clamp(value, min, max) == value <==> IsInRange(value, min, max)
  {
  }

  /**
   * `mapRange(value, fromMin, fromMax, toMin, toMax)`.  When the source range
   * is empty the normalised fraction is an IEEE division by zero: a positive
   * numerator gives +Inf (coerced to 1), a negative one -Inf (coerced to 0)
   * and a zero numerator NaN, which propagates; `None` stands for that NaN.
   */
  function MapRange(value: real, fromMin: real, fromMax: real, toMin: real, toMax: real): (r: Option<real>)
    ensures r.None? <==> fromMax == fromMin && value == fromMin
    ensures r.Some? ==> Min(toMin, toMax) <= r.value <= Max(toMin, toMax)
    ensures fromMax != fromMin && value == fromMin ==> r == Some(toMin)
    ensures fromMax != fromMin && value == fromMax ==> r == Some(toMax)
  {
    if fromMax == fromMin then
      if value > fromMin then Some(Lerp(toMin, toMax, 1.0))
      else if value < fromMin then Some(Lerp(toMin, toMax, 0.0))
      else None
    else
      var normalized := (value - fromMin) / (fromMax - fromMin);
      DivSelf(fromMax - fromMin);
      Some(Lerp(toMin, toMax, Clamp(normalized, 0.0, 1.0)))
  }

  /** Ten to an integer power, exact. */
  function Pow10(decimals: int): (m: real)
    ensures m > 0.0
    decreases if decimals < 0 then -decimals else decimals
  {
    if decimals == 0 then 1.0
    else if decimals > 0 then 10.0 * Pow10(decimals - 1)
    else Pow10(decimals + 1) / 10.0
  }

  /** `kotlin.math.round`: to the nearest integer, ties to the even one. */
  function RoundHalfEven(x: real): (n: int)
    ensures Abs(x - n as real) <= 0.5
    ensures Abs(x - n as real) == 0.5 ==> n % 2 == 0
  {
    var f := x.Floor;
    var frac := x - f as real;
    if frac < 0.5 then f
    else if frac > 0.5 then f + 1
    else if f % 2 == 0 then f else f + 1
  }

  /**
   * `Float.roundTo(decimals)`: rounding at the multiplier `10^decimals`;
   * with no decimals it is plain rounding (3.7 gives 4.0).
   */
  function RoundTo(x: real, decimals: int): (r: real)
    ensures decimals == 0 ==> r == RoundHalfEven(x) as real
  {
    RoundAt(x, Pow10(decimals))
  }

  /**
   * Rounds `x * multiplier` to a whole number and scales back: the result
   * is a whole multiple of 1/multiplier (the scaled input rounded half to
   * even), at most half such a step away from the input.
   */
  function RoundAt(x: real, multiplier: real): (r: real)
    requires multiplier > 0.0
    ensures r * multiplier == RoundHalfEven(x * multiplier) as real
    ensures Abs(r * multiplier - x * multiplier) <= 0.5
  {
    var n := RoundHalfEven(x * multiplier);
    DivThenMul(n as real, multiplier);
    n as real / multiplier
  }

  /** A non-zero number divided by itself is 1. */
  lemma DivSelf(a: real)
    requires a != 0.0
    ensures a / a == 1.0
  {
  }

  lemma DivThenMul(a: real, m: real)
    requires m > 0.0
    ensures (a / m) * m == a
  {
  }

  /** `Float.safeDivide(divisor, default)`. */
  function SafeDivide(x: real, divisor: real, default: real): (r: real)
    ensures divisor == 0.0 ==> r == default
    ensures divisor != 0.0 ==> r * divisor == x
  {
    if divisor != 0.0 then x / divisor else default
  }

  /**
   * `Int.safeDivide(divisor, default)` on 32-bit `Int`s: Kotlin's `/`
   * truncates toward zero and wraps, so `Int.MIN_VALUE / -1` is
   * `Int.MIN_VALUE`; every other quotient is in range.
   */
  function SafeDivideInt(x: int, divisor: int, default: int): (r: int)
    requires Int32Min <= x <= Int32Max && Int32Min <= divisor <= Int32Max
    requires Int32Min <= default <= Int32Max
    ensures Int32Min <= r <= Int32Max
    ensures divisor == 0 ==> r == default
    ensures x == Int32Min && divisor == -1 ==> r == Int32Min
    ensures divisor != 0 && !(x == Int32Min && divisor == -1) ==> var rem := x - r * divisor;
      && (rem == 0 || (rem > 0 <==> x > 0))
      && (if divisor > 0 then -divisor < rem < divisor else divisor < rem < -divisor)
  {
    if divisor != 0 then
      TruncDivInRange(x, divisor);
      WrapInt32(TruncDiv(x, divisor))
    else default
  }

  /** A truncated quotient of 32-bit values overflows only for `Int.MIN_VALUE / -1`, where it is 2^31. */
  lemma TruncDivInRange(x: int, d: int)
    requires Int32Min <= x <= Int32Max && Int32Min <= d <= Int32Max && d != 0
    ensures x == Int32Min && d == -1 ==> TruncDiv(x, d) == Int32Max + 1
    ensures !(x == Int32Min && d == -1) ==> Int32Min <= TruncDiv(x, d) <= Int32Max
  {
    var a: nat := if x >= 0 then x else -x;
    var b: nat := if d > 0 then d else -d;
    assert TruncDiv(x, d) == (if (x >= 0) == (d > 0) then a / b else -(a / b));
    QuotientAtMost(a, b);
    if x == Int32Min && b >= 2 {
      QuotientByLargerDivisor(a, b);
    }
  }

  /** Dividing by at least one never increases a natural number. */
  lemma QuotientAtMost(a: nat, b: nat)
    requires b >= 1
    ensures a / b <= a
  {
    var q := a / b;
    assert q * b + a % b == a;
    assert q * b >= q * 1 by {
      assert q * b - q * 1 == q * (b - 1);
    }
  }

  /** 2^31 divided by two or more is at most 2^30. */
  lemma QuotientByLargerDivisor(a: nat, b: nat)
    requires a == 0x8000_0000 && b >= 2
    ensures a / b <= 0x4000_0000
  {
    var q := a / b;
    assert q * b + a % b == a;
    assert q * b >= q * 2 by {
      assert q * b - q * 2 == q * (b - 2);
    }
  }
}
