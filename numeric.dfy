/** Python's numeric built-ins on `real`. */
module Numeric {

  function Abs(x: real): (r: real)
    ensures r >= 0.0
    ensures r == x || r == -x
  {
    if x < 0.0 then -x else x
  }

  function Max(a: real, b: real): (r: real)
    ensures r >= a && r >= b && (r == a || r == b)
  {
    if a >= b then a else b
  }

  function Min(a: real, b: real): (r: real)
    ensures r <= a && r <= b && (r == a || r == b)
  {
    if a <= b then a else b
  }

  /**
    Python's `int(x)` on a float: truncation toward zero. The result is the
    integer nearest to `x` on the side of zero, so it is 0 or has the sign of
    `x`, and it is never larger in magnitude than `x`.
   */
  function Trunc(x: real): (r: int)
    ensures 0.0 <= x ==> 0 <= r && r as real <= x < r as real + 1.0
    ensures x < 0.0 ==> r <= 0 && r as real - 1.0 < x <= r as real
    ensures r == 0 || ((r > 0) == (x > 0.0))
    ensures Abs(r as real) <= Abs(x)
    ensures Abs(x - r as real) < 1.0
  {
    if x >= 0.0 then x.Floor else -((-x).Floor)
  }

  /** Python's `max(0, min(v, n - 1))`: clamp a pixel coordinate onto a screen of `n` pixels. */
  function Clamp(v: int, n: int): (r: int)
    requires n >= 1
    ensures 0 <= r < n
    ensures 0 <= v < n ==> r == v
    ensures v < 0 ==> r == 0
    ensures v >= n ==> r == n - 1
  {
    var m := if v < n - 1 then v else n - 1;
    if 0 > m then 0 else m
  }
}
