/**
 * The transition overlay: a full-viewport rectangle whose fill colour and
 * opacity are animated. Every value the opacity is set to or animated to is
 * recorded as a keyframe, with the fill at that moment; between two keyframes
 * an eased tween runs, which never leaves the interval they span.
 */
module Transitions {
  import opened Tweens

  datatype Fill = Black | White

  datatype Keyframe = Keyframe(fill: Fill, alpha: real)

  /** Every opacity the overlay is set or animated to lies in [0, 1]. */
  ghost predicate AlphasInRange(frames: seq<Keyframe>)
  {
    forall k :: 0 <= k < |frames| ==> 0.0 <= frames[k].alpha <= 1.0
  }

  /** Between two keyframes in range, every opacity the tween shows is in range too. */
  lemma TweenAlphaInRange(frames: seq<Keyframe>, k: nat, p: real)
    requires AlphasInRange(frames) && k + 1 < |frames| && 0.0 <= p <= 1.0
    ensures 0.0 <= Lerp(frames[k].alpha, frames[k + 1].alpha, p) <= 1.0
  {
    LerpBetween(frames[k].alpha, frames[k + 1].alpha, p);
  }

  class TransitionFX {
    var fill: Fill
    var alpha: real
    var keyframes: seq<Keyframe>

    ghost predicate Valid()
      reads this
    {
      && |keyframes| > 0
      && keyframes[|keyframes| - 1] == Keyframe(fill, alpha)
      && AlphasInRange(keyframes)
    }

    /** The overlay starts black and fully transparent. */
    constructor ()
      ensures fill == Black && alpha == 0.0
      ensures keyframes == [Keyframe(Black, 0.0)]
      ensures Valid()
    {
      fill, alpha := Black, 0.0;
      keyframes := [Keyframe(Black, 0.0)];
    }

    /** Repaints the overlay with fill `f` and sets its opacity to `a`. */
    method Paint(f: Fill, a: real)
      requires Valid() && 0.0 <= a <= 1.0
      modifies this
      ensures fill == f && alpha == a
      ensures keyframes == old(keyframes) + [Keyframe(f, a)]
      ensures Valid()
    {
      fill, alpha := f, a;
      keyframes := keyframes + [Keyframe(f, a)];
    }

    /** Fades to full coverage. */
    method FadeOut(duration: real) returns (took: real)
      requires Valid()
      modifies this
      ensures fill == old(fill) && alpha == 1.0
      ensures keyframes == old(keyframes) + [Keyframe(fill, 1.0)]
      ensures Valid()
      ensures took == Settle(duration)
    {
      Paint(fill, 1.0);
      took := Settle(duration);
    }

    /** Jumps to full coverage whatever the opacity was, then fades to clear. */
    method FadeIn(duration: real) returns (took: real)
      requires Valid()
      modifies this
      ensures fill == old(fill) && alpha == 0.0
      ensures keyframes == old(keyframes) + [Keyframe(fill, 1.0), Keyframe(fill, 0.0)]
      ensures Valid()
      ensures took == Settle(duration)
    {
      Paint(fill, 1.0);
      Paint(fill, 0.0);
      took := Settle(duration);
    }

    /** Turns white at full opacity, fades to clear, then goes back to a black
        fill at opacity 0. */
    method Flash(duration: real) returns (took: real)
      requires Valid()
      modifies this
      ensures fill == Black && alpha == 0.0
      ensures keyframes == old(keyframes) + [Keyframe(White, 1.0), Keyframe(White, 0.0), Keyframe(Black, 0.0)]
      ensures Valid()
      ensures took == Settle(duration)
    {
      Paint(White, 1.0);
      Paint(White, 0.0);
      Paint(Black, 0.0);
      took := Settle(duration);
    }
  }
}
