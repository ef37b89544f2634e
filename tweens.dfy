/**
 * Eased animations and timers, reduced to what the engine observes of them:
 * an animation with a duration ends at its target, and it (or a timer)
 * settles after the duration has passed. Easing curves are not modelled
 * beyond the fact that eased progress stays within [0, 1].
 */
module Tweens {

  function Max(a: real, b: real): (m: real)
    ensures m >= a && m >= b
    ensures m == a || m == b
  {
    if a >= b then a else b
  }

  /** The time a tween or a `setTimeout` of the given duration takes to settle:
      the duration itself, or nothing when it is not positive. */
  function Settle(duration: real): (t: real)
    ensures t >= 0.0
    ensures t >= duration
    ensures duration > 0.0 ==> t == duration
    ensures duration <= 0.0 ==> t == 0.0
  {
    if duration > 0.0 then duration else 0.0
  }

  /** The value of a tween from `from` to `to` at eased progress `p`. */
  function Lerp(from: real, to: real, p: real): real
  {
    from + (to - from) * p
  }

  /** A product of two non-negative numbers is non-negative. */
  lemma ProductNonNegative(a: real, b: real)
    requires a >= 0.0 && b >= 0.0
    ensures a * b >= 0.0
  {
  }

  /** A tween never leaves the interval spanned by its two ends. */
  lemma LerpBetween(from: real, to: real, p: real)
    requires 0.0 <= p <= 1.0
    ensures from <= to ==> from <= Lerp(from, to, p) <= to
    ensures to <= from ==> to <= Lerp(from, to, p) <= from
    ensures Lerp(from, to, 0.0) == from && Lerp(from, to, 1.0) == to
  {
    var gap := if from <= to then to - from else from - to;
    ProductNonNegative(gap, p);
    ProductNonNegative(gap, 1.0 - p);
    assert gap * (1.0 - p) == gap - gap * p;
  }
}
