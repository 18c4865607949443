/** Python's numeric primitives used by the steric engine, over exact reals. */
module Numerics {

  /** `math.pi`, the double closest to pi. */
  const Pi: real := 3.141592653589793

  /** `sys.float_info.max`, the largest finite double. */
  const FloatMax: real := 1.7976931348623157e308

  function Abs(x: real): (r: real)
    ensures r >= 0.0 && (r == x || r == -x)
  {
    if x < 0.0 then -x else x
  }

  /** Python's built-in `round` on one argument: the nearest integer, ties to the even one. */
  function Round(x: real): (k: int)
    ensures -0.5 <= x - k as real <= 0.5
    ensures (x - k as real == 0.5 || x - k as real == -0.5) ==> k % 2 == 0
  {
    var f := x.Floor;
    var d := x - f as real;
    if d < 0.5 then f
    else if d > 0.5 then f + 1
    else if f % 2 == 0 then f
    else f + 1
  }

  /** Python's `int()` on a float: truncation toward zero. */
  function Trunc(x: real): (k: int)
    ensures x >= 0.0 ==> 0 <= k && k as real <= x < k as real + 1.0
    ensures x < 0.0 ==> k <= 0 && k as real - 1.0 < x <= k as real
  {
    if x >= 0.0 then x.Floor else -((-x).Floor)
  }

  /** A product that is not negative, with a positive second factor, has a first factor that is not negative. */
  lemma NonNegativeFactor(a: real, d: real)
    requires d > 0.0 && a * d >= 0.0
    ensures a >= 0.0
  {
  }
}
