/**
 * The camera: a pose (x, y, zoom) and the stage transform derived from it.
 * The transform keeps the viewport centre (960, 540) on world point
 * (x + 960, y + 540) for any zoom. Pan and zoom are eased animations that
 * settle at their targets; shake jitters only the stage position and then
 * restores the pose exactly.
 */
module Cameras {
  import opened Models
  import opened Tweens

  const CenterX: real := 960.0
  const CenterY: real := 540.0
  const ShakeStepMs: real := 50.0

  datatype Pose = Pose(x: real, y: real, zoom: real)

  /** The stage container's scale and position. */
  datatype StageTransform = StageTransform(scale: real, position: Point)

  /** Where the stage draws world point `w`. */
  function ScreenPoint(t: StageTransform, w: Point): Point
  {
    Point(w.x * t.scale + t.position.x, w.y * t.scale + t.position.y)
  }

  /** The stage position that puts the camera at (x, y) under `zoom`. */
  function StagePosition(x: real, y: real, zoom: real): Point
  {
    Point(-x * zoom + CenterX * (1.0 - zoom), -y * zoom + CenterY * (1.0 - zoom))
  }

  /** The stage transform of a pose: scale is the zoom; `CentreIsFixed` says
      which world point it shows at the viewport centre. */
  function TransformOf(p: Pose): (t: StageTransform)
    ensures t.scale == p.zoom
  {
    StageTransform(p.zoom, StagePosition(p.x, p.y, p.zoom))
  }

  /** The viewport centre shows world point (x + 960, y + 540), and when the
      zoom is not 0 no other point lands there. */
  lemma CentreIsFixed(p: Pose)
    ensures ScreenPoint(TransformOf(p), Point(p.x + CenterX, p.y + CenterY)) == Point(CenterX, CenterY)
    ensures p.zoom != 0.0 ==> forall w :: ScreenPoint(TransformOf(p), w) == Point(CenterX, CenterY) ==>
                                           w == Point(p.x + CenterX, p.y + CenterY)
  {
    var t := TransformOf(p);
    var z := p.zoom;
    assert (p.x + CenterX) * z + (-p.x * z + CenterX * (1.0 - z)) == CenterX;
    assert (p.y + CenterY) * z + (-p.y * z + CenterY * (1.0 - z)) == CenterY;
    if z != 0.0 {
      forall w | ScreenPoint(t, w) == Point(CenterX, CenterY)
        ensures w == Point(p.x + CenterX, p.y + CenterY)
      {
        assert w.x * z == (p.x + CenterX) * z;
        assert w.y * z == (p.y + CenterY) * z;
        CancelFactor(w.x, p.x + CenterX, z);
        CancelFactor(w.y, p.y + CenterY, z);
      }
    }
  }

  lemma CancelFactor(a: real, b: real, z: real)
    requires z != 0.0 && a * z == b * z
    ensures a == b
  {
    assert (a - b) * z == 0.0;
  }

  /** `Math.floor(duration / 50)` jitter steps, none when that is negative. */
  function ShakeSteps(duration: real): (n: nat)
    ensures duration >= 0.0 ==> n as real * 50.0 <= duration < (n + 1) as real * 50.0
    ensures duration < ShakeStepMs ==> n == 0
  {
    if duration < 0.0 then 0 else (duration / ShakeStepMs).Floor
  }

  /** One jitter offset, `(Math.random() - 0.5) * 2 * intensity` with the random
      draw `u` in [0, 1): within [-intensity, intensity) for a positive intensity. */
  function Jitter(u: real, intensity: real): (offset: real)
    requires 0.0 <= u < 1.0
    ensures intensity > 0.0 ==> -intensity <= offset < intensity
    ensures intensity < 0.0 ==> intensity < offset <= -intensity
    ensures intensity == 0.0 ==> offset == 0.0
  {
    var s := (u - 0.5) * 2.0;
    var r := s * intensity;
    ScaleBounds(s, intensity, r);
    r
  }

  lemma ScaleBounds(s: real, i: real, r: real)
    requires -1.0 <= s < 1.0 && r == s * i
    ensures i > 0.0 ==> -i <= r < i
    ensures i < 0.0 ==> i < r <= -i
    ensures i == 0.0 ==> r == 0.0
  {
    var m := if i > 0.0 then i else -i;
    if m > 0.0 {
      ProductNonNegative(s + 1.0, m);
      ProductPositive(1.0 - s, m);
      assert (s + 1.0) * m == s * m + m;
      assert (1.0 - s) * m == m - s * m;
      assert s * m == if i > 0.0 then s * i else -(s * i);
    }
  }

  lemma ProductPositive(a: real, b: real)
    requires a > 0.0 && b > 0.0
    ensures a * b > 0.0
  {
  }

  /** Panning writes only the position; zooming writes only the zoom. */
  function Panned(p: Pose, target: Point): Pose
  {
    p.(x := target.x, y := target.y)
  }

  function Zoomed(p: Pose, zoom: real): Pose
  {
    p.(zoom := zoom)
  }

  /** A pan and a zoom touch disjoint parts of the pose, so the order in which
      two such animations settle does not matter. */
  lemma PanZoomCommute(p: Pose, target: Point, zoom: real)
    ensures Panned(Zoomed(p, zoom), target) == Zoomed(Panned(p, target), zoom)
    ensures Panned(p, target).zoom == p.zoom && Zoomed(p, zoom).x == p.x && Zoomed(p, zoom).y == p.y
  {
  }

  class Camera {
    var x: real
    var y: real
    var zoom: real
    var stage: StageTransform

    function CurrentPose(): Pose
      reads this
    {
      Pose(x, y, zoom)
    }

    /** The stage shows the current pose. */
    ghost predicate Valid()
      reads this
    {
      stage == TransformOf(CurrentPose())
    }

    /** A new camera starts at (0, 0) with zoom 1 over an untransformed stage. */
    constructor ()
      ensures CurrentPose() == Pose(0.0, 0.0, 1.0)
      ensures stage == StageTransform(1.0, Point(0.0, 0.0))
      ensures Valid()
    {
      x, y, zoom := 0.0, 0.0, 1.0;
      stage := StageTransform(1.0, Point(0.0, 0.0));
    }

    method ApplyTransform()
      modifies this
      ensures CurrentPose() == old(CurrentPose())
      ensures Valid()
    {
      stage := StageTransform(zoom, StagePosition(x, y, zoom));
    }

    method SetImmediate(x': real, y': real, zoom': real)
      modifies this
      ensures CurrentPose() == Pose(x', y', zoom')
      ensures Valid()
    {
      x, y, zoom := x', y', zoom';
      ApplyTransform();
    }

    /** Settles at the target position with the zoom unchanged. */
    method PanTo(target: Point, duration: real) returns (took: real)
      modifies this
      ensures CurrentPose() == Panned(old(CurrentPose()), target)
      ensures Valid()
      ensures took == Settle(duration)
    {
      x, y := target.x, target.y;
      ApplyTransform();
      took := Settle(duration);
    }

    /** Settles at the target zoom with the position unchanged. */
    method ZoomTo(targetZoom: real, duration: real) returns (took: real)
      modifies this
      ensures CurrentPose() == Zoomed(old(CurrentPose()), targetZoom)
      ensures Valid()
      ensures took == Settle(duration)
    {
      zoom := targetZoom;
      ApplyTransform();
      took := Settle(duration);
    }

    /** Shows `ShakeSteps(duration)` jittered stage positions, one per 50 ms step,
        each the pose's own position shifted by an offset within the intensity;
        the pose fields are never written and the stage ends on the pose again. */
    method Shake(intensity: real, duration: real) returns (took: real, offsets: seq<Point>, frames: seq<Point>)
      requires Valid()
      modifies this
      ensures CurrentPose() == old(CurrentPose())
      ensures Valid()
      ensures |offsets| == |frames| == ShakeSteps(duration)
      ensures forall k :: 0 <= k < |offsets| ==>
                (intensity > 0.0 ==> -intensity <= offsets[k].x < intensity && -intensity <= offsets[k].y < intensity)
      ensures forall k :: 0 <= k < |offsets| ==>
                frames[k] == StagePosition(x + offsets[k].x, y + offsets[k].y, zoom)
      ensures took == ShakeSteps(duration) as real * ShakeStepMs
    {
      var originalX, originalY := x, y;
      var steps := ShakeSteps(duration);
      offsets, frames := [], [];
      var i := 0;
      while i < steps
        invariant 0 <= i <= steps
        invariant CurrentPose() == old(CurrentPose()) && stage.scale == zoom
        invariant |offsets| == |frames| == i
        invariant forall k :: 0 <= k < i ==>
                    (intensity > 0.0 ==> -intensity <= offsets[k].x < intensity && -intensity <= offsets[k].y < intensity)
        invariant forall k :: 0 <= k < i ==>
                    frames[k] == StagePosition(originalX + offsets[k].x, originalY + offsets[k].y, zoom)
      {
        var u :| 0.0 <= u < 1.0;
        var v :| 0.0 <= v < 1.0;
        var offset := Point(Jitter(u, intensity), Jitter(v, intensity));
        var position := StagePosition(originalX + offset.x, originalY + offset.y, zoom);
        stage := stage.(position := position);
        offsets, frames := offsets + [offset], frames + [position];
        i := i + 1;
      }
      x, y := originalX, originalY;
      ApplyTransform();
      took := steps as real * ShakeStepMs;
    }
  }
}
