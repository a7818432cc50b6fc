/** Integer forms of the percentages the application computes with `Math.round`. */
module Percent {

  /**
   * `Math.round(num / den)` for a positive denominator: the integer nearest to
   * the quotient, halves rounded up (towards +infinity, as `Math.round` does).
   */
  function RoundDiv(num: int, den: int): (r: int)
    requires den > 0
    ensures 2 * den * r <= 2 * num + den < 2 * den * (r + 1)
  {
    (2 * num + den) / (2 * den)
  }

  /** Multiplying by a positive factor preserves strict order, both ways. */
  lemma ScaleLess(w: int, a: int, b: int)
    requires w > 0
    ensures w * a < w * b <==> a < b
  {
    if a < b {
      assert w * b - w * a == w * (b - a);
    } else {
      assert w * a - w * b == w * (a - b);
    }
  }

  /** `Math.round((part / whole) * 100)`. */
  function Percentage(part: int, whole: int): (r: int)
    requires whole > 0
    ensures 0 <= part <= whole ==> 0 <= r <= 100
    ensures part == whole ==> r == 100
    ensures part == 0 ==> r == 0
  {
    var r := RoundDiv(100 * part, whole);
    ScaleLess(2 * whole, -1, r);
    ScaleLess(2 * whole, r, 101);
    ScaleLess(2 * whole, 99, r);
    ScaleLess(2 * whole, r, 1);
    r
  }

  /** A rounded percentage reaches a bound `b` exactly when `200 * part >= (2 * b - 1) * whole`. */
  lemma PercentageAtLeast(part: int, whole: int, b: int)
    requires whole > 0
    ensures Percentage(part, whole) >= b <==> 200 * part >= (2 * b - 1) * whole
  {
    var r := Percentage(part, whole);
    ScaleLess(2 * whole, r, b);
    ScaleLess(2 * whole, b - 1, r);
  }
}
