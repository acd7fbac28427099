/**
  Arithmetic shared by the filter stack and the event processor. Sample values and coefficients are
  modelled as mathematical reals; the C library's transcendental functions
  and the constant pi are not modelled and are passed in as a `Libm` value.
 */
module Numeric {

  /** std::numeric_limits<float>::min(), the smallest positive normal float (2^-126). */
  const FltMin: real := 1.1754943508222875079687365372222456778186655567720875215087517062784172594547271728515625e-38

  function Abs(x: real): (r: real)
    ensures r >= 0.0
    ensures r == x || r == -x
  {
    if x < 0.0 then -x else x
  }

  function Min(x: real, y: real): (r: real)
    ensures r <= x && r <= y
    ensures r == x || r == y
  {
    if x <= y then x else y
  }

  /**
    Division made total: a zero divisor gives 0 instead of an IEEE infinity
    or NaN, which reals cannot represent.
   */
  function Div(a: real, b: real): (q: real)
    ensures b != 0.0 ==> q * b == a
    ensures b == 0.0 ==> q == 0.0
  {
    if b == 0.0 then 0.0 else a / b
  }

  /** std::max on integers (sample times, update rates). */
  function MaxInt(a: int, b: int): (r: int)
    ensures r >= a && r >= b && (r == a || r == b)
  {
    if a >= b then a else b
  }

  /** The parts of <cmath> the coefficient generators use, left uninterpreted. */
  datatype Libm = Libm(pi: real, cos: real -> real, sin: real -> real, tan: real -> real)
}
