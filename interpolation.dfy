// The two numeric helpers of the animation library that the swipe pager
// calls: `clamp(value, min, max)` and `interpolate(value, [0, 1], [from, to],
// Extrapolation.CLAMP)`. Numbers are modelled as exact reals.

module Interpolation {

  /** min(max(v, lo), hi): the value pinned into the closed range [lo, hi]. */
  function Clamp(v: real, lo: real, hi: real): (r: real)
    requires lo <= hi
    ensures lo <= r <= hi
    ensures lo <= v <= hi ==> r == v
    ensures v < lo ==> r == lo
    ensures hi < v ==> r == hi
  {
    var atLeastLo := if v < lo then lo else v;
    if atLeastLo < hi then atLeastLo else hi
  }

  /** Linear interpolation of `p` from the input range [0, 1] onto the output
      range [from, to], with both ends clamped: below 0 it yields `from`,
      above 1 it yields `to`. */
  function Interpolate(p: real, from: real, to: real): (r: real)
    ensures r == from + (to - from) * Clamp(p, 0.0, 1.0)
    ensures (from <= to ==> from <= r <= to) && (to <= from ==> to <= r <= from)
    ensures p <= 0.0 ==> r == from
    ensures 1.0 <= p ==> r == to
  {
    if p < 0.0 then from
    else if p > 1.0 then to
    else
      FractionOfRange(p, from, to);
      from + (to - from) * p
  }

  /** A point a fraction f in [0, 1] of the way from `from` to `to` lies
      between them. */
  lemma FractionOfRange(f: real, from: real, to: real)
    requires 0.0 <= f <= 1.0
    ensures from <= to ==> from <= from + (to - from) * f <= to
    ensures to <= from ==> to <= from + (to - from) * f <= from
  {
    if from <= to {
      MulNonNegative(to - from, f);
      MulNonNegative(to - from, 1.0 - f);
      assert to - (from + (to - from) * f) == (to - from) * (1.0 - f);
    } else {
      MulNonNegative(from - to, f);
      MulNonNegative(from - to, 1.0 - f);
      assert from - (from + (to - from) * f) == (from - to) * f;
      assert from + (to - from) * f - to == (from - to) * (1.0 - f);
    }
  }

  lemma MulNonNegative(a: real, b: real)
    requires 0.0 <= a && 0.0 <= b
    ensures 0.0 <= a * b
  {
  }

  /** Clamping at the mirrored point of [0, 1] mirrors the clamped value. */
  lemma ClampMirror(p: real)
    ensures Clamp(1.0 - p, 0.0, 1.0) == 1.0 - Clamp(p, 0.0, 1.0)
  {
  }

  /** Clamped interpolation is monotone in its input: non-decreasing when the
      output range rises, non-increasing when it falls. */
  lemma InterpolateMonotone(p: real, q: real, from: real, to: real)
    requires p <= q
    ensures from <= to ==> Interpolate(p, from, to) <= Interpolate(q, from, to)
    ensures to <= from ==> Interpolate(q, from, to) <= Interpolate(p, from, to)
  {
    var cp, cq := Clamp(p, 0.0, 1.0), Clamp(q, 0.0, 1.0);
    assert cp <= cq;
    assert Interpolate(q, from, to) - Interpolate(p, from, to) == (to - from) * (cq - cp);
    if from <= to {
      MulNonNegative(to - from, cq - cp);
    } else {
      MulNonNegative(from - to, cq - cp);
      assert Interpolate(p, from, to) - Interpolate(q, from, to) == (from - to) * (cq - cp);
    }
  }
}
