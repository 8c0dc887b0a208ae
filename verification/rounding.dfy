/**
  The rounding rules the calculators use. Each rule is its own function,
  because the rules are not interchangeable:
  - `RoundHalfEven` is Python's `round(x)` / `round(x, 0)` (ties go to the even neighbour);
  - `Trunc` is Python's `int(x)` (toward zero);
  - `RoundUpIfOverHalf` is the traditional withholding rule (up only above one half);
  - `FloorToThousand` is `x // 1000 * 1000` (toward minus infinity).
*/
module Rounding {

  /** `r` is an integer nearest to `x`, and an even one when `x` lies exactly halfway. */
  ghost predicate NearestTiesEven(x: real, r: int) {
    && -0.5 <= r as real - x <= 0.5
    && (r as real - x == 0.5 || x - r as real == 0.5 ==> r % 2 == 0)
  }

  /** Banker's rounding to an integer. */
  function RoundHalfEven(x: real): (r: int)
    ensures NearestTiesEven(x, r)
  {
    var f := x.Floor;
    var frac := x - f as real;
    if frac < 0.5 then f
    else if frac > 0.5 then f + 1
    else if f % 2 == 0 then f
    else f + 1
  }

  /** The nearest-ties-even integer is unique, so `NearestTiesEven` is a full specification. */
  lemma RoundHalfEvenUnique(x: real, r: int)
    requires NearestTiesEven(x, r)
    ensures r == RoundHalfEven(x)
  {
  }

  lemma RoundHalfEvenMonotone(x: real, y: real)
    requires x <= y
    ensures RoundHalfEven(x) <= RoundHalfEven(y)
  {
  }

  /** Scaling by a non-negative factor preserves order. */
  lemma ScaleMonotone(x: real, y: real, k: real)
    requires x <= y && 0.0 <= k
    ensures x * k <= y * k
  {
  }

  /** Scaling by two non-negative factors preserves order. */
  lemma ScaleMonotone2(x: real, y: real, k1: real, k2: real)
    requires x <= y && 0.0 <= k1 && 0.0 <= k2
    ensures x * k1 * k2 <= y * k1 * k2
  {
    ScaleMonotone(x, y, k1);
    ScaleMonotone(x * k1, y * k1, k2);
  }

  /** Truncation toward zero; for non-negative inputs it is the floor. */
  function Trunc(x: real): (r: int)
    ensures 0.0 <= x ==> r == x.Floor
    ensures x < 0.0 ==> r as real - 1.0 < x <= r as real
  {
    if x >= 0.0 then x.Floor else -((-x).Floor)
  }

  /**
    Traditional rounding: keep the integer part and add one only when the
    remainder strictly exceeds one half, so a remainder of exactly one half
    is dropped. Below zero the remainder is never positive and the result
    is the truncation.
  */
  function RoundUpIfOverHalf(x: real): (r: int)
    ensures 0.0 <= x ==> x - 0.5 <= r as real < x + 0.5
    ensures 0.0 <= x ==> (r == x.Floor + 1 <==> x - x.Floor as real > 0.5)
    ensures 0.0 <= x ==> (r == x.Floor <==> x - x.Floor as real <= 0.5)
    ensures x < 0.0 ==> r as real - 1.0 < x <= r as real
  {
    var whole := Trunc(x);
    var fraction := x - whole as real;
    whole + (if fraction > 0.5 then 1 else 0)
  }

  /** For non-negative inputs the traditional rule is exactly "nearest, ties down". */
  lemma RoundUpIfOverHalfUnique(x: real, r: int)
    requires 0.0 <= x
    requires x - 0.5 <= r as real < x + 0.5
    ensures r == RoundUpIfOverHalf(x)
  {
  }

  lemma RoundUpIfOverHalfMonotone(x: real, y: real)
    requires x <= y
    ensures RoundUpIfOverHalf(x) <= RoundUpIfOverHalf(y)
  {
  }

  /** The largest multiple of 1,000 that does not exceed `x`. */
  function FloorToThousand(x: real): (r: int)
    ensures r % 1000 == 0
    ensures r as real <= x < r as real + 1000.0
  {
    (x / 1000.0).Floor * 1000
  }

  lemma FloorToThousandMonotone(x: real, y: real)
    requires x <= y
    ensures FloorToThousand(x) <= FloorToThousand(y)
  {
  }
}
