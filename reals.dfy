/** Small real-number helpers standing in for java.lang.Math on doubles. */
module Reals {

  /** Math.abs */
  function Abs(x: real): (r: real)
    ensures r >= 0.0
    ensures r == x || r == -x
  {
    if x < 0.0 then -x else x
  }

  /** Math.signum: -1, 0 or 1 according to the sign of x. */
  function Signum(x: real): (r: real)
    ensures r == 0.0 <==> x == 0.0
    ensures r > 0.0 <==> x > 0.0
    ensures r * Abs(x) == x
  {
    if x > 0.0 then 1.0 else if x < 0.0 then -1.0 else 0.0
  }

  /** Math.min */
  function Min(a: real, b: real): (r: real)
    ensures r <= a && r <= b
    ensures r == a || r == b
  {
    if a <= b then a else b
  }

  /** Math.max */
  function Max(a: real, b: real): (r: real)
    ensures r >= a && r >= b
    ensures r == a || r == b
  {
    if a >= b then a else b
  }
}
