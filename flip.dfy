/** What a flip does to keypoint coordinates, and the properties of that map. */
module Flip {
  import opened Data

  /** Reflection of one point: axis 0 mirrors y in a frame of height h, axis 1
      mirrors x in a frame of width w, any other axis leaves the point alone. */
  function FlipPoint(p: Point, axis: int, h: int, w: int): Point
  {
    if axis == 0 then p.(y := h - 1 - p.y)
    else if axis == 1 then p.(x := w - 1 - p.x)
    else p
  }

  /** The flip applied to every point, in order. */
  function FlipAll(pts: seq<Point>, axis: int, h: int, w: int): (r: seq<Point>)
    ensures |r| == |pts|
  {
    if pts == [] then [] else [FlipPoint(pts[0], axis, h, w)] + FlipAll(pts[1..], axis, h, w)
  }

  /** The point lies inside the [0, w) x [0, h) frame. */
  predicate InFrame(p: Point, h: int, w: int)
  {
    0 <= p.x < w && 0 <= p.y < h
  }

  predicate AllInFrame(pts: seq<Point>, h: int, w: int)
  {
    forall k :: 0 <= k < |pts| ==> InFrame(pts[k], h, w)
  }

  /** The k-th flipped point is the flip of the k-th point. */
  lemma {:induction false} FlipAllAt(pts: seq<Point>, axis: int, h: int, w: int, k: nat)
    requires k < |pts|
    ensures FlipAll(pts, axis, h, w)[k] == FlipPoint(pts[k], axis, h, w)
  {
    if k > 0 {
      FlipAllAt(pts[1..], axis, h, w, k - 1);
    }
  }

  /** Flipping along axis 1 maps every x to w - 1 - x and keeps every y. */
  lemma FlipAxis1ReflectsX(pts: seq<Point>, h: int, w: int)
    ensures |FlipAll(pts, 1, h, w)| == |pts|
    ensures forall k :: 0 <= k < |pts| ==>
      FlipAll(pts, 1, h, w)[k] == Point(w - 1 - pts[k].x, pts[k].y)
  {
    forall k | 0 <= k < |pts|
      ensures FlipAll(pts, 1, h, w)[k] == Point(w - 1 - pts[k].x, pts[k].y)
    {
      FlipAllAt(pts, 1, h, w, k);
    }
  }

  /** Flipping along axis 0 maps every y to h - 1 - y and keeps every x. */
  lemma FlipAxis0ReflectsY(pts: seq<Point>, h: int, w: int)
    ensures |FlipAll(pts, 0, h, w)| == |pts|
    ensures forall k :: 0 <= k < |pts| ==>
      FlipAll(pts, 0, h, w)[k] == Point(pts[k].x, h - 1 - pts[k].y)
  {
    forall k | 0 <= k < |pts|
      ensures FlipAll(pts, 0, h, w)[k] == Point(pts[k].x, h - 1 - pts[k].y)
    {
      FlipAllAt(pts, 0, h, w, k);
    }
  }

  /** An axis other than 0 and 1 leaves every coordinate as it was. */
  lemma {:induction false} FlipOtherAxisIsIdentity(pts: seq<Point>, axis: int, h: int, w: int)
    requires axis != 0 && axis != 1
    ensures FlipAll(pts, axis, h, w) == pts
  {
    if pts != [] {
      FlipOtherAxisIsIdentity(pts[1..], axis, h, w);
    }
  }

  /** Flipping twice along the same axis, in the same frame, restores the
      original coordinates exactly. */
  lemma {:induction false} FlipInvolution(pts: seq<Point>, axis: int, h: int, w: int)
    ensures FlipAll(FlipAll(pts, axis, h, w), axis, h, w) == pts
  {
    if pts != [] {
      FlipInvolution(pts[1..], axis, h, w);
    }
  }

  /** The flip maps the frame [0, w) x [0, h) onto itself: the flipped points
      are all inside the frame exactly when the original points are. */
  lemma FlipKeepsFrame(pts: seq<Point>, axis: int, h: int, w: int)
    ensures AllInFrame(FlipAll(pts, axis, h, w), h, w) <==> AllInFrame(pts, h, w)
  {
    var r := FlipAll(pts, axis, h, w);
    forall k | 0 <= k < |pts|
      ensures InFrame(r[k], h, w) <==> InFrame(pts[k], h, w)
    {
      FlipAllAt(pts, axis, h, w, k);
    }
  }
}
