/** `scaleQty` and the base amount a step's use resolves to. */
module Scaling {
  import opened RecipeData

  /** 10^21: from this magnitude on, `toFixed` prints the number unrounded. */
  const FixedLimit: real := 1000000000000000000000.0

  /** `+y.toFixed(2)` for `y >= 0`: the hundredths count `n` that makes
      `n / 100 - y` closest to zero, the larger one on a tie. */
  function RoundMagnitude(y: real): real
  {
    if y >= FixedLimit then y else ((y * 100.0 + 0.5).Floor as real) / 100.0
  }

  /** `+x.toFixed(2)` evaluated on exact reals: a negative number is rounded
      by its magnitude and the sign put back. The result is within half a
      hundredth of `x`. */
  function Round2(x: real): (r: real)
    ensures -0.005 <= r - x <= 0.005
    ensures (x < 0.0 ==> r <= 0.0) && (x >= 0.0 ==> r >= 0.0)
  {
    if x < 0.0 then -RoundMagnitude(-x) else RoundMagnitude(x)
  }

  /** A number already given in whole hundredths is left unchanged. */
  lemma Round2OfHundredths(n: int)
    ensures Round2(n as real / 100.0) == n as real / 100.0
  {
    var y := n as real / 100.0;
    if n >= 0 {
      assert y * 100.0 + 0.5 == n as real + 0.5;
      assert (n as real + 0.5).Floor == n;
    } else {
      assert -y * 100.0 + 0.5 == (-n) as real + 0.5;
      assert ((-n) as real + 0.5).Floor == -n;
    }
  }

  /** Rounding twice is rounding once. */
  lemma Round2Idempotent(x: real)
    ensures Round2(Round2(x)) == Round2(x)
  {
    var y := if x < 0.0 then -x else x;
    if y < FixedLimit {
      var n := (y * 100.0 + 0.5).Floor;
      if x < 0.0 {
        assert Round2(x) == (-n) as real / 100.0;
        Round2OfHundredths(-n);
      } else {
        assert Round2(x) == n as real / 100.0;
        Round2OfHundredths(n);
      }
    }
  }

  /** `scaleQty(value)` with `currentScale` passed as `factor`. */
  function Scale(value: real, factor: real): (r: real)
    ensures -0.005 <= r - value * factor <= 0.005
  {
    Round2(value * factor)
  }

  /** Scaling by 1 only rounds, and leaves an amount in whole hundredths as it is. */
  lemma ScaleByOne(n: int)
    ensures Scale(n as real / 100.0, 1.0) == n as real / 100.0
  {
    Round2OfHundredths(n);
  }

  /** The unscaled amount of a use: a use of at most 1 is that fraction of
      the recipe's total for the ingredient, or of 1 when the totals map has
      no entry for it; a larger use is an absolute amount. */
  function BaseAmount(u: Use, totals: map<string, real>): (r: real)
    ensures u.qty <= 1.0 && u.ingredientId in totals ==> r == totals[u.ingredientId] * u.qty
    ensures u.qty <= 1.0 && u.ingredientId !in totals ==> r == u.qty
    ensures u.qty > 1.0 ==> r == u.qty
  {
    var baseTotal := if u.ingredientId in totals then totals[u.ingredientId] else 1.0;
    if u.qty <= 1.0 then baseTotal * u.qty else u.qty
  }

  /** A use above 1 is an absolute amount, whatever any totals map holds. */
  lemma AbsoluteUse(u: Use, totals: map<string, real>, other: map<string, real>)
    requires u.qty > 1.0
    ensures BaseAmount(u, totals) == u.qty == BaseAmount(u, other)
  {
  }

  /** The displayed amount of a use, by the three cases of `renderUses`. */
  lemma ScaledUseAmount(u: Use, totals: map<string, real>, factor: real)
    ensures u.qty <= 1.0 && u.ingredientId in totals ==>
      Scale(BaseAmount(u, totals), factor) == Scale(totals[u.ingredientId] * u.qty, factor)
    ensures u.qty <= 1.0 && u.ingredientId !in totals ==>
      Scale(BaseAmount(u, totals), factor) == Scale(u.qty, factor)
    ensures u.qty > 1.0 ==> Scale(BaseAmount(u, totals), factor) == Scale(u.qty, factor)
  {
    var b := BaseAmount(u, totals);
    if u.qty <= 1.0 && u.ingredientId in totals {
      assert b == totals[u.ingredientId] * u.qty;
    } else {
      assert b == u.qty;
    }
  }
}
