/**
  * Shoulder-shaped fuzzy membership functions, as provided by the fuzzy-logic
  * library the controller uses: `S(low, high)` falls from 1 to 0 and
  * `R(low, high)` rises from 0 to 1, both linearly between the two thresholds
  * and saturated outside them.
  */
module Fuzzy {

  datatype Slope = Falling | Rising

  /** A shoulder membership function; meaningful only when `low < high`. */
  datatype Shoulder = Shoulder(slope: Slope, low: real, high: real) {
    predicate Valid() { low < high }
  }

  /** The library's `S(low, high)`: a falling shoulder. */
  function S(low: real, high: real): (s: Shoulder)
    requires low < high
    ensures s.Valid() && s.slope == Falling && s.low == low && s.high == high
  {
    Shoulder(Falling, low, high)
  }

  /** The library's `R(low, high)`: a rising shoulder. */
  function R(low: real, high: real): (s: Shoulder)
    requires low < high
    ensures s.Valid() && s.slope == Rising && s.low == low && s.high == high
  {
    Shoulder(Rising, low, high)
  }

  /** Degree of membership of `x` in the fuzzy set `s`; total over the reals. */
  function Degree(s: Shoulder, x: real): (m: real)
    requires s.Valid()
    ensures 0.0 <= m <= 1.0
  {
    if x <= s.low then
      (if s.slope == Falling then 1.0 else 0.0)
    else if x >= s.high then
      (if s.slope == Falling then 0.0 else 1.0)
    else
      LinearPiece(s, x)
  }

  /** The interpolating part of a shoulder, between its two thresholds. */
  function LinearPiece(s: Shoulder, x: real): (m: real)
    requires s.Valid() && s.low <= x <= s.high
    ensures 0.0 <= m <= 1.0
  {
    var width := s.high - s.low;
    var frac := (x - s.low) / width;
    assert 0.0 <= frac <= 1.0 by { DivisionWithinUnit(x - s.low, width); }
    match s.slope
    case Falling => 1.0 - frac
    case Rising => frac
  }

  lemma DivisionWithinUnit(a: real, w: real)
    requires 0.0 < w && 0.0 <= a <= w
    ensures 0.0 <= a / w <= 1.0
  {
  }

  lemma UnitQuotient(w: real)
    requires 0.0 < w
    ensures w / w == 1.0
  {
  }

  lemma QuotientMonotone(a: real, b: real, w: real)
    requires 0.0 < w && a <= b
    ensures a / w <= b / w
  {
  }

  lemma QuotientDifference(a: real, b: real, w: real)
    requires 0.0 < w
    ensures b / w - a / w == (b - a) / w
  {
  }

  /**
    * The linear piece meets the saturated values at both thresholds, so the
    * shoulder has no jump, and the degree moves by at most |x - y| / (high - low).
    */
  lemma Lipschitz(s: Shoulder, x: real, y: real)
    requires s.Valid() && x <= y
    ensures Degree(s, y) - Degree(s, x) <= (y - x) / (s.high - s.low)
    ensures Degree(s, x) - Degree(s, y) <= (y - x) / (s.high - s.low)
  {
    var w := s.high - s.low;
    var cx, cy := Clip(s, x), Clip(s, y);
    FractionForm(s, x);
    FractionForm(s, y);
    QuotientDifference(cx - s.low, cy - s.low, w);
    QuotientMonotone(cy - cx, y - x, w);
  }

  /** `x` moved into the interval [low, high]. */
  function Clip(s: Shoulder, x: real): (c: real)
    requires s.Valid()
    ensures s.low <= c <= s.high
    ensures s.low <= x <= s.high ==> c == x
  {
    if x <= s.low then s.low else if x >= s.high then s.high else x
  }

  /** Every degree is the linear piece evaluated at the clipped argument. */
  lemma FractionForm(s: Shoulder, x: real)
    requires s.Valid()
    ensures Degree(s, x) == LinearPiece(s, Clip(s, x))
  {
    var w := s.high - s.low;
    assert (s.low - s.low) / w == 0.0;
    UnitQuotient(w);
  }

  /** A falling shoulder never increases. */
  lemma FallingNonIncreasing(s: Shoulder, x: real, y: real)
    requires s.Valid() && s.slope == Falling && x <= y
    ensures Degree(s, y) <= Degree(s, x)
  {
    MonotoneFraction(s, x, y);
  }

  /** A rising shoulder never decreases. */
  lemma RisingNonDecreasing(s: Shoulder, x: real, y: real)
    requires s.Valid() && s.slope == Rising && x <= y
    ensures Degree(s, x) <= Degree(s, y)
  {
    MonotoneFraction(s, x, y);
  }

  lemma MonotoneFraction(s: Shoulder, x: real, y: real)
    requires s.Valid() && x <= y
    ensures (Clip(s, x) - s.low) / (s.high - s.low) <= (Clip(s, y) - s.low) / (s.high - s.low)
    ensures Degree(s, x) == LinearPiece(s, Clip(s, x))
    ensures Degree(s, y) == LinearPiece(s, Clip(s, y))
  {
    FractionForm(s, x);
    FractionForm(s, y);
    QuotientMonotone(Clip(s, x) - s.low, Clip(s, y) - s.low, s.high - s.low);
  }

  /** `S(low, high)` in closed form: 1 up to `low`, 0 from `high` on, and linear between. */
  lemma FallingShoulderDegree(low: real, high: real, x: real)
    requires low < high
    ensures Degree(S(low, high), x) ==
      (if x <= low then 1.0 else if x < high then (high - x) / (high - low) else 0.0)
  {
    if low < x < high {
      var w := high - low;
      QuotientDifference(x - low, w, w);
      UnitQuotient(w);
    }
  }

  /** `R(low, high)` in closed form: 0 up to `low`, 1 from `high` on, and linear between. */
  lemma RisingShoulderDegree(low: real, high: real, x: real)
    requires low < high
    ensures Degree(R(low, high), x) ==
      (if x < low then 0.0 else if x <= high then (x - low) / (high - low) else 1.0)
  {
    if x == high {
      UnitQuotient(high - low);
    }
  }

  /** `R(low, high)` is the fuzzy complement of `S(low, high)`. */
  lemma RisingIsComplement(low: real, high: real, x: real)
    requires low < high
    ensures Degree(R(low, high), x) == 1.0 - Degree(S(low, high), x)
  {
  }
}
