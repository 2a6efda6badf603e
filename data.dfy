/** The keypoint container the transforms consume and produce. */
module Data {

  /** One keypoint, as a row (x, y) of the point buffer. */
  datatype Point = Point(x: int, y: int)

  /** A set of keypoints: an N x 2 buffer of (x, y) rows, with the height and
      width of the frame they belong to. */
  class KeyPoints {
    const data: array2<int>
    const H: int
    const W: int

    constructor (pts: array2<int>, h: int, w: int)
      ensures data == pts && H == h && W == w
    {
      data := pts;
      H := h;
      W := w;
    }
  }

  /** The rows of an N x 2 buffer as a sequence of points. */
  ghost function Rows(a: array2<int>): (r: seq<Point>)
    reads a
    requires a.Length1 == 2
    ensures |r| == a.Length0
    ensures forall k :: 0 <= k < a.Length0 ==> r[k] == Point(a[k, 0], a[k, 1])
  {
    seq(a.Length0, k reads a requires 0 <= k < a.Length0 => Point(a[k, 0], a[k, 1]))
  }
}
