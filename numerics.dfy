/**
 * Shared numeric vocabulary of the scaling engine.
 *
 * All dimensions are modelled as mathematical reals.  The transcendental
 * functions the engine calls (natural logarithm, exponential, square root
 * and power) are not computed: they are carried as a `MathLib` value, a
 * record of function values, and a lemma that needs one of their laws asks
 * for it through `Lawful`.
 */
module Numerics {

  datatype Option<T> = None | Some(value: T)

  datatype Result<T, E> = Ok(value: T) | Err(error: E)

  /** The platform's `ln`, `exp`, `sqrt` and `pow`, left uninterpreted. */
  datatype MathLib = MathLib(
    ln: real -> real,
    exp: real -> real,
    sqrt: real -> real,
    pow: (real, real) -> real)

  /** The only laws of the math library that the proofs rely on. */
  ghost predicate Lawful(m: MathLib)
  {
    && m.ln(1.0) == 0.0
    && (forall e :: m.pow(1.0, e) == 1.0)
  }

  function Abs(x: real): (r: real)
    ensures r >= 0.0
    ensures r == x || r == -x
  {
    if x < 0.0 then -x else x
  }

  function Min(a: real, b: real): (r: real)
    ensures r <= a && r <= b
    ensures r == a || r == b
  {
    if a <= b then a else b
  }

  function Max(a: real, b: real): (r: real)
    ensures r >= a && r >= b
    ensures r == a || r == b
  {
    if a >= b then a else b
  }

  /** Integer division truncating toward zero, as Kotlin, C++ and JavaScript do. */
  function TruncDiv(x: int, d: int): (q: int)
    requires d != 0
    ensures var rem := x - q * d;
      && (rem == 0 || (rem > 0 <==> x > 0))
      && (if d > 0 then -d < rem < d else d < rem < -d)
  {
    if x >= 0 then (if d > 0 then x / d else -(x / -d))
    else (if d > 0 then -((-x) / d) else (-x) / (-d))
  }

  /** Truncation toward zero, the core of Kotlin's `Float.toInt()`. */
  function TruncToInt(x: real): (n: int)
    ensures Abs(n as real) <= Abs(x)
    ensures Abs(x) - Abs(n as real) < 1.0
    ensures n == 0 || (n > 0 <==> x > 0.0)
  {
    if x >= 0.0 then x.Floor else -((-x).Floor)
  }

  const Int32Min: int := -0x8000_0000
  const Int32Max: int := 0x7fff_ffff

  /** Kotlin `Float.toInt()` on a finite value: truncation, saturating at the 32-bit bounds. */
  function FloatToInt(x: real): (n: int)
    ensures Int32Min <= n <= Int32Max
    ensures Int32Min as real < x < Int32Max as real ==> n == TruncToInt(x)
  {
    if x >= Int32Max as real then Int32Max
    else if x <= Int32Min as real then Int32Min
    else TruncToInt(x)
  }

  /** 32-bit two's-complement wrap-around of an integer result. */
  function WrapInt32(n: int): (w: int)
    ensures Int32Min <= w <= Int32Max
    ensures Int32Min <= n <= Int32Max ==> w == n
    ensures n == Int32Max + 1 ==> w == Int32Min
  {
    (n - Int32Min) % 0x1_0000_0000 + Int32Min
  }

  /** A quotient of a larger positive number by a smaller one is at least 1. */
  lemma RatioAtLeastOne(a: real, b: real)
    requires 0.0 < b <= a
    ensures a / b >= 1.0
  {
    var q := a / b;
    assert q * b == a;
    assert (1.0 - q) * b == b - a;
  }
}
