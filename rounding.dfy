/**
 * The two rounding operations the scoring code applies to exact (real) amounts:
 * `Math.round` and `Number(x.toFixed(2))`. Binary floating-point error is not modelled.
 */
module Rounding {

  /** `Math.round(x)`: the nearest integer, halves rounded toward +infinity. */
  function JsRound(x: real): (n: int)
    ensures x - 0.5 < n as real <= x + 0.5
  {
    (x + 0.5).Floor
  }

  /** True when `x` has at most two decimal places. */
  predicate TwoDecimals(x: real) {
    (x * 100.0).Floor as real == x * 100.0
  }

  /**
   * `Number(x.toFixed(2))`: the nearest multiple of 0.01; `toFixed` works on the
   * magnitude and re-applies the sign, so halves are rounded away from zero.
   */
  function ToFixed2(x: real): (r: real)
    ensures TwoDecimals(r)
    ensures x >= 0.0 ==> x - 0.005 < r <= x + 0.005
    ensures x < 0.0 ==> x - 0.005 <= r < x + 0.005
  {
    if x >= 0.0 then
      var n := JsRound(x * 100.0);
      assert (n as real / 100.0) * 100.0 == n as real;
      assert (n as real).Floor == n;
      assert x * 100.0 - 0.5 < n as real <= x * 100.0 + 0.5;
      n as real / 100.0
    else
      var n := JsRound(-x * 100.0);
      assert (-(n as real / 100.0)) * 100.0 == (-n) as real;
      assert ((-n) as real).Floor == -n;
      assert -x * 100.0 - 0.5 < n as real <= -x * 100.0 + 0.5;
      -(n as real / 100.0)
  }

  /** A value that already has two decimals is left unchanged by `toFixed(2)`. */
  lemma ToFixed2OfTwoDecimals(x: real)
    requires TwoDecimals(x)
    ensures ToFixed2(x) == x
  {
    var n := (x * 100.0).Floor;
    assert n as real == x * 100.0;
    if x >= 0.0 {
      assert JsRound(x * 100.0) == n;
    } else {
      assert (-x * 100.0).Floor == -n;
      assert JsRound(-x * 100.0) == -n;
    }
  }

  /** Rounding twice to two decimals is the same as rounding once. */
  lemma ToFixed2Idempotent(x: real)
    ensures ToFixed2(ToFixed2(x)) == ToFixed2(x)
  {
    ToFixed2OfTwoDecimals(ToFixed2(x));
  }

  /** `toFixed` is symmetric about zero, except that 0 has no negative image. */
  lemma ToFixed2Odd(x: real)
    requires x > 0.0
    ensures ToFixed2(-x) == -ToFixed2(x)
  {
  }

  /** `Math.round` of an integer-valued amount is that integer. */
  lemma JsRoundOfInteger(k: int)
    ensures JsRound(k as real) == k
  {
  }
}
