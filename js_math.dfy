/**
 * `Math.round((a / b) * 100)` for counts `a` and `b`, as the progress bars of the
 * flood kit and of the property assessment compute it. With `b == 0` JavaScript
 * yields `NaN` (for `0 / 0`) or `Infinity`; the model keeps those two outcomes.
 */
module JsMath {

  datatype Ratio = Percent(value: int) | NaN | Infinity

  /** Half-up rounding of `100 * a / b`, or the non-finite outcome of a division by zero. */
  function RoundedPercent(a: nat, b: nat): (r: Ratio)
    ensures b == 0 ==> r == (if a == 0 then NaN else Infinity)
    ensures b > 0 ==> r.Percent? && r.value >= 0
    ensures b > 0 ==> 2 * r.value * b - b <= 200 * a < 2 * r.value * b + b
    ensures b > 0 && a <= b ==> r.value <= 100
  {
    if b == 0 then (if a == 0 then NaN else Infinity)
    else
      var q := (200 * a + b) / (2 * b);
      RoundingBounds(a, b, q);
      Percent(q)
  }

  /** The quotient of the half-up formula is the nearest integer to `100 * a / b`. */
  lemma RoundingBounds(a: nat, b: nat, q: int)
    requires b > 0 && q == (200 * a + b) / (2 * b)
    ensures q >= 0
    ensures 2 * q * b - b <= 200 * a < 2 * q * b + b
    ensures a <= b ==> q <= 100
  {
    var n := 200 * a + b;
    var d := 2 * b;
    assert n == d * q + n % d && 0 <= n % d < d;
    assert 2 * q * b == d * q;
    if a <= b {
      assert d * q <= n <= 201 * b;
    }
  }
}
