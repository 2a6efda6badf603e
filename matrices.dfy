/** The 3 x 3 homogeneous matrices that the rotation, shear and scale
    transforms sample, and what each does to a point. */
module Matrices {

  type Matrix = seq<seq<real>>

  predicate Is3x3(m: Matrix)
  {
    |m| == 3 && forall i :: 0 <= i < 3 ==> |m[i]| == 3
  }

  const Identity: Matrix := [[1.0, 0.0, 0.0], [0.0, 1.0, 0.0], [0.0, 0.0, 1.0]]

  /** One row of a matrix applied to the homogeneous point (x, y, 1). */
  function RowTimes(row: seq<real>, x: real, y: real): real
    requires |row| == 3
  {
    row[0] * x + row[1] * y + row[2]
  }

  /** The matrix applied to the homogeneous point (x, y, 1). */
  function Transform(m: Matrix, x: real, y: real): (r: seq<real>)
    requires Is3x3(m)
    ensures |r| == 3
  {
    [RowTimes(m[0], x, y), RowTimes(m[1], x, y), RowTimes(m[2], x, y)]
  }

  /** Rotation layout [[c, -s, 0], [s, c, 0], [0, 0, 1]], from the cosine c and
      sine s of the sampled angle. */
  function RotationMatrix(c: real, s: real): (m: Matrix)
    ensures Is3x3(m)
  {
    [[c, -s, 0.0], [s, c, 0.0], [0.0, 0.0, 1.0]]
  }

  /** Shear layout [[1, shear_y, 0], [shear_x, 1, 0], [0, 0, 1]]. */
  function ShearMatrix(shearX: real, shearY: real): (m: Matrix)
    ensures Is3x3(m)
  {
    [[1.0, shearY, 0.0], [shearX, 1.0, 0.0], [0.0, 0.0, 1.0]]
  }

  /** Scale layout diag(scale_x, scale_y, 1). */
  function ScaleMatrix(scaleX: real, scaleY: real): (m: Matrix)
    ensures Is3x3(m)
  {
    [[scaleX, 0.0, 0.0], [0.0, scaleY, 0.0], [0.0, 0.0, 1.0]]
  }

  /** The shear matrix moves (x, y) to (x + shear_y * y, shear_x * x + y). */
  lemma ShearMovesPoints(shearX: real, shearY: real, x: real, y: real)
    ensures Transform(ShearMatrix(shearX, shearY), x, y) == [x + shearY * y, shearX * x + y, 1.0]
  {
    var m := ShearMatrix(shearX, shearY);
    assert RowTimes(m[0], x, y) == x + shearY * y;
    assert RowTimes(m[1], x, y) == shearX * x + y;
    assert RowTimes(m[2], x, y) == 1.0;
  }

  /** The scale matrix moves (x, y) to (scale_x * x, scale_y * y). */
  lemma ScaleMovesPoints(scaleX: real, scaleY: real, x: real, y: real)
    ensures Transform(ScaleMatrix(scaleX, scaleY), x, y) == [scaleX * x, scaleY * y, 1.0]
  {
    var m := ScaleMatrix(scaleX, scaleY);
    assert RowTimes(m[0], x, y) == scaleX * x;
    assert RowTimes(m[1], x, y) == scaleY * y;
    assert RowTimes(m[2], x, y) == 1.0;
  }

  /** The rotation matrix moves (x, y) to (c x - s y, s x + c y); when c and s
      are a cosine and a sine (c^2 + s^2 = 1) it keeps the distance to the
      origin. */
  lemma RotationMovesPoints(c: real, s: real, x: real, y: real)
    ensures Transform(RotationMatrix(c, s), x, y) == [c * x - s * y, s * x + c * y, 1.0]
    ensures c * c + s * s == 1.0 ==>
      (c * x - s * y) * (c * x - s * y) + (s * x + c * y) * (s * x + c * y) == x * x + y * y
  {
    var m := RotationMatrix(c, s);
    assert RowTimes(m[0], x, y) == c * x - s * y;
    assert RowTimes(m[1], x, y) == s * x + c * y;
    assert RowTimes(m[2], x, y) == 1.0;
    calc {
      (c * x - s * y) * (c * x - s * y) + (s * x + c * y) * (s * x + c * y);
      c * c * x * x - 2.0 * c * s * x * y + s * s * y * y + s * s * x * x + 2.0 * c * s * x * y + c * c * y * y;
      (c * c + s * s) * (x * x + y * y);
    }
  }

  /** Zero shear gives the identity matrix. */
  lemma ZeroShearIsIdentity()
    ensures ShearMatrix(0.0, 0.0) == Identity
  {
  }

  /** Unit scale gives the identity matrix. */
  lemma UnitScaleIsIdentity()
    ensures ScaleMatrix(1.0, 1.0) == Identity
  {
  }

  /** The zero angle (cos 0 = 1, sin 0 = 0) gives the identity matrix. */
  lemma ZeroRotationIsIdentity()
    ensures RotationMatrix(1.0, 0.0) == Identity
  {
  }
}
