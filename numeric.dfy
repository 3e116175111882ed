/** Python's numeric conversions on prices, written out over `real`. */
module Numeric {

  function Abs(x: real): real
  {
    if x < 0.0 then -x else x
  }

  /** Python's `int(x)` on a float: truncation toward zero. */
  function Trunc(x: real): (n: int)
    ensures 0.0 <= x ==> n as real <= x < n as real + 1.0
    ensures x < 0.0 ==> n as real - 1.0 < x <= n as real
  {
    if x >= 0.0 then x.Floor else -((-x).Floor)
  }

  /** Python's one-argument `round(x)`: the nearest integer, ties to the even one. */
  function RoundHalfEven(x: real): (n: int)
    ensures n as real - 0.5 <= x <= n as real + 0.5
    ensures x == n as real - 0.5 || x == n as real + 0.5 ==> n % 2 == 0
  {
    var f := x.Floor;
    var d := x - f as real;
    if d < 0.5 then f
    else if d > 0.5 then f + 1
    else if f % 2 == 0 then f
    else f + 1
  }

  /** The two properties of RoundHalfEven determine it: no other integer has both. */
  lemma RoundHalfEvenUnique(x: real, m: int)
    requires m as real - 0.5 <= x <= m as real + 0.5
    requires x == m as real - 0.5 || x == m as real + 0.5 ==> m % 2 == 0
    ensures m == RoundHalfEven(x)
  {
  }

  /** `round(x / 5) * 5`: the multiple of 5 nearest to `x` (ties to an even multiple of 5). */
  function NearestFive(x: real): (n: int)
    ensures n % 5 == 0
    ensures n as real - 2.5 <= x <= n as real + 2.5
  {
    RoundHalfEven(x / 5.0) * 5
  }

  /** Truncation never moves a smaller argument above a larger one. */
  lemma TruncMonotone(x: real, y: real)
    requires x <= y
    ensures Trunc(x) <= Trunc(y)
  {
    if 0.0 <= x {
      assert Trunc(x) as real <= x <= y;
    } else if y < 0.0 {
      assert x <= y <= Trunc(y) as real;
    }
  }
}
