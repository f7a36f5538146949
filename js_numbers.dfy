/**
 * JavaScript number operations that the modelled code relies on, written out
 * over Dafny's unbounded `int` and exact `real` (no IEEE rounding).
 */
module JsNumbers {

  /** `a % b` on integers: JavaScript truncates, so the remainder takes the sign of `a`. */
  function IntRem(a: int, b: int): (r: int)
    requires b > 0
    ensures a >= 0 ==> 0 <= r < b
    ensures a < 0 ==> -b < r <= 0
    ensures a >= 0 ==> r == a % b
  {
    if a >= 0 then a % b else -((-a) % b)
  }

  /** `Math.floor(a / b)` for a positive divisor. */
  function FloorDiv(a: int, b: int): (q: int)
    requires b > 0
    ensures q * b <= a < q * b + b
  {
    a / b
  }

  /** `Math.floor(x)` on a real. */
  function Floor(x: real): (n: int)
    ensures n as real <= x < n as real + 1.0
  {
    x.Floor
  }

  /** `Math.round(x)`: the nearest integer, halves rounded towards +infinity. */
  function Round(x: real): (n: int)
    ensures n as real - 0.5 <= x < n as real + 0.5
  {
    (x + 0.5).Floor
  }

  /** Truncation towards zero, as JavaScript's `%` uses it. */
  function Trunc(x: real): (n: int)
    ensures x >= 0.0 ==> n as real <= x < n as real + 1.0
    ensures x < 0.0 ==> n as real - 1.0 < x <= n as real
  {
    if x >= 0.0 then x.Floor else -((-x).Floor)
  }

  /** `x % y` on numbers: `x - y * trunc(x / y)`. */
  function Fmod(x: real, y: real): (r: real)
    requires y > 0.0
    ensures x >= 0.0 ==> 0.0 <= r < y
  {
    var q := Trunc(x / y);
    if x >= 0.0 then
      FloorMulBounds(x, y, q);
      x - q as real * y
    else
      x - q as real * y
  }

  /** For a non-negative dividend, `q = floor(x / y)` satisfies `q * y <= x < q * y + y`. */
  lemma FloorMulBounds(x: real, y: real, q: int)
    requires y > 0.0 && x >= 0.0
    requires q as real <= x / y < q as real + 1.0
    ensures q as real * y <= x < q as real * y + y
  {
    var d := x / y;
    var qr := q as real;
    var e := qr + 1.0;
    assert d * y == x;
    MulLess(qr, d, y);
    MulLess(d, e, y);
    assert x < e * y;
    assert e * y == qr * y + 1.0 * y;
  }

  lemma MulLess(a: real, b: real, c: real)
    requires a <= b && c > 0.0
    ensures a * c <= b * c
    ensures a < b ==> a * c < b * c
  {
  }

  lemma RoundMonotone(x: real, y: real)
    requires x <= y
    ensures Round(x) <= Round(y)
  {
  }
}
