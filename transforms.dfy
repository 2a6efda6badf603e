/** The transforms: the keypoint flip, the sampling steps of the rotation,
    shear, scale and perspective transforms, and the crop and pad stubs. */
module Transforms {
  import opened Outcomes
  import opened Data
  import opened Flip
  import opened Ranges
  import opened Matrices

  /** One entry of a transform's state dictionary: a sampled number or the
      sampled matrix. */
  datatype StateValue = Number(v: real) | Matrix3(m: Matrix)

  type StateDict = map<string, StateValue>

  /** The state RandomRotate records: the sampled angle and the rotation
      matrix built from its cosine c and sine s. */
  function RotateState(rot: real, c: real, s: real): (d: StateDict)
    ensures d.Keys == {"rot", "transform_matrix"}
    ensures d["rot"] == Number(rot)
    ensures d["transform_matrix"] == Matrix3(RotationMatrix(c, s))
  {
    map["rot" := Number(rot), "transform_matrix" := Matrix3(RotationMatrix(c, s))]
  }

  /** The state RandomShear records: the two sampled shears, and the shear
      matrix built from exactly the recorded values. */
  function ShearState(shearX: real, shearY: real): (d: StateDict)
    ensures d.Keys == {"shear_x", "shear_y", "transform_matrix"}
    ensures d["shear_x"] == Number(shearX) && d["shear_y"] == Number(shearY)
    ensures d["transform_matrix"] == Matrix3(ShearMatrix(d["shear_x"].v, d["shear_y"].v))
  {
    map["shear_x" := Number(shearX), "shear_y" := Number(shearY),
        "transform_matrix" := Matrix3(ShearMatrix(shearX, shearY))]
  }

  /** The state RandomScale records: the two sampled factors, and the scale
      matrix built from exactly the recorded values. */
  function ScaleState(scaleX: real, scaleY: real): (d: StateDict)
    ensures d.Keys == {"scale_x", "scale_y", "transform_matrix"}
    ensures d["scale_x"] == Number(scaleX) && d["scale_y"] == Number(scaleY)
    ensures d["transform_matrix"] == Matrix3(ScaleMatrix(d["scale_x"].v, d["scale_y"].v))
  {
    map["scale_x" := Number(scaleX), "scale_y" := Number(scaleY),
        "transform_matrix" := Matrix3(ScaleMatrix(scaleX, scaleY))]
  }

  /** The recorded shear matrix moves (x, y) by the recorded shears:
      (x + shear_y * y, shear_x * x + y). */
  lemma ShearStateMovesPoints(shearX: real, shearY: real, x: real, y: real)
    ensures var d := ShearState(shearX, shearY);
      var p := Transform(d["transform_matrix"].m, x, y);
      p[0] == x + d["shear_y"].v * y && p[1] == d["shear_x"].v * x + y && p[2] == 1.0
  {
    ShearMovesPoints(shearX, shearY, x, y);
  }

  /** The recorded scale matrix moves (x, y) by the recorded factors:
      (scale_x * x, scale_y * y). */
  lemma ScaleStateMovesPoints(scaleX: real, scaleY: real, x: real, y: real)
    ensures var d := ScaleState(scaleX, scaleY);
      var p := Transform(d["transform_matrix"].m, x, y);
      p[0] == d["scale_x"].v * x && p[1] == d["scale_y"].v * y && p[2] == 1.0
  {
    ScaleMovesPoints(scaleX, scaleY, x, y);
  }

  /** `pts.data.copy()`: a fresh buffer with the same shape and entries. */
  method CopyBuffer(a: array2<int>) returns (b: array2<int>)
    ensures fresh(b)
    ensures b.Length0 == a.Length0 && b.Length1 == a.Length1
    ensures forall i, j :: 0 <= i < a.Length0 && 0 <= j < a.Length1 ==> b[i, j] == a[i, j]
  {
    b := new int[a.Length0, a.Length1];
    var i := 0;
    while i < a.Length0
      invariant 0 <= i <= a.Length0
      invariant forall k, j :: 0 <= k < i && 0 <= j < a.Length1 ==> b[k, j] == a[k, j]
    {
      var j := 0;
      while j < a.Length1
        invariant 0 <= j <= a.Length1
        invariant forall k, l :: 0 <= k < i && 0 <= l < a.Length1 ==> b[k, l] == a[k, l]
        invariant forall l :: 0 <= l < j ==> b[i, l] == a[i, l]
      {
        b[i, j] := a[i, j];
        j := j + 1;
      }
      i := i + 1;
    }
  }

  /** `buf[:, col] = extent - 1 - buf[:, col]`: mirrors one column in place. */
  method ReflectColumn(buf: array2<int>, col: nat, extent: int)
    requires col < buf.Length1
    modifies buf
    ensures forall i :: 0 <= i < buf.Length0 ==> buf[i, col] == extent - 1 - old(buf[i, col])
    ensures forall i, j :: 0 <= i < buf.Length0 && 0 <= j < buf.Length1 && j != col ==>
      buf[i, j] == old(buf[i, j])
  {
    var i := 0;
    while i < buf.Length0
      invariant 0 <= i <= buf.Length0
      invariant forall k :: 0 <= k < i ==> buf[k, col] == extent - 1 - old(buf[k, col])
      invariant forall k :: i <= k < buf.Length0 ==> buf[k, col] == old(buf[k, col])
      invariant forall k, j :: 0 <= k < buf.Length0 && 0 <= j < buf.Length1 && j != col ==>
        buf[k, j] == old(buf[k, j])
    {
      buf[i, col] := extent - 1 - buf[i, col];
      i := i + 1;
    }
  }

  /** Random flip along a fixed axis (0: vertical, mirrors y; 1: horizontal,
      mirrors x). It samples nothing. */
  class RandomFlip {
    const axis: int

    constructor (axis: int := 1)
      ensures this.axis == axis
    {
      this.axis := axis;
    }

    /** Sampling does nothing: no state is set. */
    method SampleTransform()
      ensures unchanged(this)
    {
    }

    /** Labels pass through unchanged. */
    function ApplyLabels<L>(labels: L): (r: L)
      ensures r == labels
    {
      labels
    }

    /** Flips the keypoints into a new KeyPoints over a fresh buffer, with the
        same height and width; the input's buffer is left untouched. */
    method ApplyPoints(pts: KeyPoints) returns (r: KeyPoints)
      requires pts.data.Length1 == 2
      ensures fresh(r) && fresh(r.data)
      ensures r.H == pts.H && r.W == pts.W && r.data.Length1 == 2
      ensures unchanged(pts.data)
      ensures Rows(r.data) == FlipAll(Rows(pts.data), axis, pts.H, pts.W)
    {
      var buf := CopyBuffer(pts.data);
      if axis == 0 {
        ReflectColumn(buf, 1, pts.H);
      }
      if axis == 1 {
        ReflectColumn(buf, 0, pts.W);
      }
      r := new KeyPoints(buf, pts.H, pts.W);
      ghost var before := Rows(pts.data);
      forall k | 0 <= k < |before|
        ensures Rows(buf)[k] == FlipAll(before, axis, pts.H, pts.W)[k]
      {
        FlipAllAt(before, axis, pts.H, pts.W, k);
      }
    }
  }

  /** Random rotation: samples an angle from the stored range and records it
      with the rotation matrix. */
  class RandomRotate {
    const rotationRange: Bound
    var stateDict: StateDict

    constructor (rotationRange: Bound)
      ensures this.rotationRange == rotationRange
    {
      this.rotationRange := rotationRange;
    }

    /** rot is the sampled angle; c and s are its cosine and sine. */
    method SampleTransform(rot: real, c: real, s: real) returns (r: Outcome)
      requires Sampleable(rotationRange) ==> Within(rotationRange, rot)
      modifies this`stateDict
      ensures r == CheckRange(rotationRange, RotationRange)
      ensures r.Pass? ==> stateDict == RotateState(rot, c, s)
      ensures r.Fail? ==> stateDict == old(stateDict)
    {
      r := CheckRange(rotationRange, RotationRange);
      if r.Pass? {
        stateDict := RotateState(rot, c, s);
      }
    }
  }

  /** Random shear: normalises its ranges at construction, then samples one
      shear per axis and records them with the shear matrix. */
  class RandomShear {
    const rangeX: Bound
    const rangeY: Bound
    var stateDict: StateDict

    constructor (rangeX: Bound, rangeY: Bound)
      ensures (this.rangeX, this.rangeY) == NormaliseRanges(rangeX, rangeY)
    {
      var (x, y) := NormaliseRanges(rangeX, rangeY);
      this.rangeX := x;
      this.rangeY := y;
    }

    /** shearX and shearY are the values sampled from the stored ranges. */
    method SampleTransform(shearX: real, shearY: real) returns (r: Outcome)
      requires Sampleable(rangeX) ==> Within(rangeX, shearX)
      requires Sampleable(rangeY) ==> Within(rangeY, shearY)
      modifies this`stateDict
      ensures r == CheckRanges(rangeX, rangeY)
      ensures r.Pass? ==> stateDict == ShearState(shearX, shearY)
      ensures r.Fail? ==> stateDict == old(stateDict)
    {
      r := CheckRanges(rangeX, rangeY);
      if r.Pass? {
        stateDict := ShearState(shearX, shearY);
      }
    }
  }

  /** Random scale: normalises its ranges at construction (both default to
      None), then samples one factor per axis and records them with the
      scale matrix. */
  class RandomScale {
    const rangeX: Bound
    const rangeY: Bound
    var stateDict: StateDict

    constructor (rangeX: Bound := NoneArg, rangeY: Bound := NoneArg)
      ensures (this.rangeX, this.rangeY) == NormaliseRanges(rangeX, rangeY)
    {
      var (x, y) := NormaliseRanges(rangeX, rangeY);
      this.rangeX := x;
      this.rangeY := y;
    }

    /** scaleX and scaleY are the values sampled from the stored ranges. */
    method SampleTransform(scaleX: real, scaleY: real) returns (r: Outcome)
      requires Sampleable(rangeX) ==> Within(rangeX, scaleX)
      requires Sampleable(rangeY) ==> Within(rangeY, scaleY)
      modifies this`stateDict
      ensures r == CheckRanges(rangeX, rangeY)
      ensures r.Pass? ==> stateDict == ScaleState(scaleX, scaleY)
      ensures r.Fail? ==> stateDict == old(stateDict)
    {
      r := CheckRanges(rangeX, rangeY);
      if r.Pass? {
        stateDict := ScaleState(scaleX, scaleY);
      }
    }
  }

  /** Worked instance of ScalarYRangeNeverSamples: a RandomScale built with
      its defaults cannot sample. Its y-range is ((1, 1), 1); the draw from it
      is an array, so building the matrix raises and no state is recorded
      (the x-range (1, 1) can only have sampled 1). */
  method DefaultScaleCannotSample(scaleY: real) returns (r: Outcome)
    ensures r == Fail(NonScalarSample)
  {
    var t := new RandomScale();
    NormalisedExamples();
    r := t.SampleTransform(1.0, scaleY);
  }

  /** Random perspective: declared, but sampling is not implemented. */
  class RandomPerspective {
    const tiltRange: Bound

    constructor (tiltRange: Bound)
      ensures this.tiltRange == tiltRange
    {
      this.tiltRange := tiltRange;
    }

    method SampleTransform() returns (r: Outcome)
      ensures r == Fail(NotImplemented)
    {
      r := Fail(NotImplemented);
    }
  }

  /** The crop and pad transforms, whose operations are placeholders: each one
      either raises NotImplementedError or leaves its input as it is. */
  datatype StubTransform = RandomCrop | Pad | CenterCrop
  {
    /** RandomCrop raises; Pad and CenterCrop sample nothing. */
    function SampleTransform(): (r: Outcome)
      ensures r.Fail? <==> RandomCrop?
      ensures r.Fail? ==> r.error == NotImplemented
    {
      if RandomCrop? then Fail(NotImplemented) else Pass
    }

    /** No stub produces an image. */
    function ApplyImage<I>(img: I): (r: Result<I>)
      ensures r == Err(NotImplemented)
    {
      Err(NotImplemented)
    }

    /** No stub produces a mask. */
    function ApplyMask<M>(mask: M): (r: Result<M>)
      ensures r == Err(NotImplemented)
    {
      Err(NotImplemented)
    }

    /** No stub produces keypoints. */
    function ApplyPoints(pts: KeyPoints): (r: Result<KeyPoints>)
      ensures r == Err(NotImplemented)
    {
      Err(NotImplemented)
    }

    /** RandomCrop and Pad pass labels through; CenterCrop raises. */
    function ApplyLabels<L>(labels: L): (r: Result<L>)
      ensures r.Err? <==> CenterCrop?
      ensures r.Err? ==> r.error == NotImplemented
      ensures r.Ok? ==> r.value == labels
    {
      if CenterCrop? then Err(NotImplemented) else Ok(labels)
    }
  }
}
