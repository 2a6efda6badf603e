# fastaug transforms — a Dafny model

This project models the deterministic core of `fastaug/transforms.py`, the
concrete augmentation transforms of fastaug:

- **RandomFlip** on keypoints: the point buffer is copied, and one column of
  the copy is mirrored (`y := H-1-y` for axis 0, `x := W-1-x` for axis 1). The
  result is a new `KeyPoints` with the same `H` and `W`. Labels pass through,
  and sampling does nothing.
- **Range normalisation** in the `RandomShear` and `RandomScale` constructors.
  `None` becomes `1`. A non-negative integer x-bound `v` becomes `(v, v)`. A
  non-negative integer y-bound `w` becomes `(x', w)`, where `x'` is the whole
  x-range as already normalised. Anything else is stored as given.
- **Sampling** in `RandomRotate`, `RandomShear` and `RandomScale`. Each builds a
  3×3 homogeneous matrix from the sampled values and records those values and
  the matrix in `state_dict`. The random draws are parameters of the methods,
  constrained to lie between the two ends of the stored range.
- **The placeholders** `RandomCrop`, `Pad`, `CenterCrop` and
  `RandomPerspective`: which operations raise `NotImplementedError` and which
  leave their input alone.

Modules: `Outcomes` (failures and results), `Data` (the `KeyPoints` container),
`Flip` (the flip as a function on point sequences and its properties), `Ranges`
(range arguments, normalisation, which ranges NumPy can sample), `Matrices` (the
three matrix layouts and what they do to a point) and `Transforms` (the transform
classes and the placeholder table).

Range arguments are the datatype `Bound = NoneArg | Int | Float | Pair(Bound,
Bound)`. A pair can hold a pair, which is what the y-range normalisation
produces. Sampling happens in two steps, and the model reports the first one
that raises:

- Each draw (`np.random.uniform(r[0], r[1])`) indexes the stored range and
  reads its two ends. The x-range is drawn from first, then the y-range. A
  draw raises, reported as `Fail(IllFormedRange(..))`, when the range is not
  a pair or when an end is None or a ragged nesting.
- The draws then go into the matrix. A draw from a pair whose ends include a
  pair is an array rather than a number, and building the matrix from it
  raises. The model reports this as `Fail(NonScalarSample)`.

Only a pair of two numbers samples without raising. The broadcast values
NumPy computes for nested ranges are not reproduced.

The normalisation treats the two axes differently:

- A scalar y-range takes the whole normalised x-range as its first
  component, not the x-range's lower bound (`fastaug/transforms.py:100`,
  `:132`). With x = 2 and y = 3 the y-range is `((2, 2), 3)`
  (`Ranges.NormalisedExamples`).
- A `RandomScale` built with its defaults has the y-range `((1, 1), 1)`. The
  draw from it is an array, so its `sample_transform` raises and never gives
  the identity matrix (`Transforms.DefaultScaleCannotSample`). More generally,
  a y-range given as `None` or as a non-negative integer never lets both
  ranges be sampled (`Ranges.ScalarYRangeNeverSamples`).

Among the placeholders, only `RandomCrop.sample_transform` and
`RandomPerspective.sample_transform` raise. `Pad.sample_transform` and
`CenterCrop.sample_transform` do nothing (`fastaug/transforms.py:184-185`,
`:206-207`).

## Model

| member | source | states |
|---|---|---|
| `Data.KeyPoints.constructor` | fastaug/transforms.py:41 | the new KeyPoints holds the given buffer, H and W |
| `Flip.FlipAll` | fastaug/transforms.py:36-41 | the flip yields exactly one point per input point |
| `Flip.FlipAllAt` | fastaug/transforms.py:36-40 | the k-th flipped point is the flip of the k-th input point, for every k |
| `Flip.FlipAxis1ReflectsX` | fastaug/transforms.py:39-40 | with axis 1, every point's x becomes W-1-x and its y is unchanged |
| `Flip.FlipAxis0ReflectsY` | fastaug/transforms.py:37-38 | with axis 0, every point's y becomes H-1-y and its x is unchanged |
| `Flip.FlipOtherAxisIsIdentity` | fastaug/transforms.py:36-41 | with an axis other than 0 or 1, the coordinates are returned as they were |
| `Flip.FlipInvolution` | fastaug/transforms.py:37-40 | flipping twice along the same axis in the same frame restores the original coordinates exactly |
| `Flip.FlipKeepsFrame` | fastaug/transforms.py:37-40 | the flipped points lie in [0,W)×[0,H) if and only if the original points do |
| `Transforms.CopyBuffer` | fastaug/transforms.py:36 | the copy is a fresh buffer with the same shape and the same entries |
| `Transforms.ReflectColumn` | fastaug/transforms.py:37-40 | the chosen column becomes extent-1-value in place, and every other column is unchanged |
| `Transforms.RandomFlip.constructor` | fastaug/transforms.py:15-17 | the flip keeps the axis it was given, 1 by default |
| `Transforms.RandomFlip.SampleTransform` | fastaug/transforms.py:19-20 | sampling sets no state |
| `Transforms.RandomFlip.ApplyLabels` | fastaug/transforms.py:31-32 | labels are returned unchanged |
| `Transforms.RandomFlip.ApplyPoints` | fastaug/transforms.py:34-41 | the result is a new KeyPoints over a fresh buffer, with the same H and W, whose rows are the flip of the input rows; the input buffer is unchanged |
| `Ranges.NoneMeansOne` | fastaug/transforms.py:91-94 | a None bound, for x or for y, normalises exactly as the integer 1 does |
| `Ranges.DigitXBecomesDegenerate` | fastaug/transforms.py:96-97 | a non-negative integer x-bound v becomes (v, v), from which only v can be sampled |
| `Ranges.DigitYTakesWholeNormalisedX` | fastaug/transforms.py:99-100 | a non-negative integer y-bound w becomes (x', w), where x' is the whole normalised x-range |
| `Ranges.OtherBoundsStoredUnchanged` | fastaug/transforms.py:96-103 | a bound that is neither None nor a non-negative integer is stored as given |
| `Ranges.NormalisedExamples` | fastaug/transforms.py:123-135 | the defaults give x = (1, 1) and y = ((1, 1), 1); x = 2, y = 3 give y = ((2, 2), 3) |
| `Ranges.ScalarYRangeNeverSamples` | fastaug/transforms.py:91-111 | when the y-range is given as None or a non-negative integer, sampling the normalised ranges always fails; when x is also None or such an integer, it fails when the matrix is built |
| `Ranges.PairRangesSample` | fastaug/transforms.py:96-107 | ranges given as pairs of numbers are stored unchanged and sample without failure |
| `Ranges.Draw` | fastaug/transforms.py:106 | a draw succeeds exactly when the range is a pair with regular ends, and otherwise fails naming that range |
| `Ranges.CheckRange` | fastaug/transforms.py:66-70 | sampling one range and building the matrix succeeds exactly when the range is a pair of numbers; an undrawable range fails naming that range, and a draw that is an array fails when the matrix is built |
| `Ranges.CheckRanges` | fastaug/transforms.py:105-111 | sampling succeeds exactly when both ranges are pairs of numbers; an undrawable x-range is reported first, then an undrawable y-range, and only then a draw that is an array |
| `Ranges.NestedXRangeReportsY` | fastaug/transforms.py:106-107 | with x = ((1, 1), (2, 2)) and y = -2 the x-draw succeeds and the y-range is the one reported |
| `Matrices.RotationMatrix` | fastaug/transforms.py:67-70 | the rotation layout is a 3×3 matrix |
| `Matrices.ShearMatrix` | fastaug/transforms.py:109-111 | the shear layout is a 3×3 matrix |
| `Matrices.ScaleMatrix` | fastaug/transforms.py:141-143 | the scale layout is a 3×3 matrix |
| `Matrices.RotationMovesPoints` | fastaug/transforms.py:67-70 | the rotation matrix maps (x, y) to (c·x − s·y, s·x + c·y) and keeps the distance to the origin when c² + s² = 1 |
| `Matrices.ShearMovesPoints` | fastaug/transforms.py:109-111 | the shear matrix maps (x, y) to (x + shear_y·y, shear_x·x + y) |
| `Matrices.ScaleMovesPoints` | fastaug/transforms.py:141-143 | the scale matrix maps (x, y) to (scale_x·x, scale_y·y) |
| `Matrices.ZeroRotationIsIdentity` | fastaug/transforms.py:67-70 | the zero angle (cos 1, sin 0) gives the identity matrix |
| `Matrices.ZeroShearIsIdentity` | fastaug/transforms.py:109-111 | zero shear gives the identity matrix |
| `Matrices.UnitScaleIsIdentity` | fastaug/transforms.py:141-143 | unit scale gives the identity matrix |
| `Transforms.RotateState` | fastaug/transforms.py:72 | the recorded state has exactly the keys rot and transform_matrix, holding the sampled angle and the rotation matrix |
| `Transforms.ShearState` | fastaug/transforms.py:109-113 | the recorded state has exactly the keys shear_x, shear_y and transform_matrix, and the matrix is built from the recorded shears |
| `Transforms.ScaleState` | fastaug/transforms.py:141-145 | the recorded state has exactly the keys scale_x, scale_y and transform_matrix, and the matrix is built from the recorded factors |
| `Transforms.ShearStateMovesPoints` | fastaug/transforms.py:109-113 | the recorded shear matrix moves points by the recorded shear values |
| `Transforms.ScaleStateMovesPoints` | fastaug/transforms.py:141-145 | the recorded scale matrix moves points by the recorded scale values |
| `Transforms.RandomRotate.constructor` | fastaug/transforms.py:57-59 | the rotation range is stored as given |
| `Transforms.RandomRotate.SampleTransform` | fastaug/transforms.py:61-72 | sampling fails exactly when the range is not a pair of numbers, with the failure the range check names, leaving the state alone; otherwise the state is the sampled angle and its rotation matrix |
| `Transforms.RandomShear.constructor` | fastaug/transforms.py:90-103 | the stored ranges are the normalised arguments |
| `Transforms.RandomShear.SampleTransform` | fastaug/transforms.py:105-113 | sampling fails as the range check says, leaving the state alone; otherwise the state records the two sampled shears and their matrix |
| `Transforms.RandomScale.constructor` | fastaug/transforms.py:121-135 | the stored ranges are the normalised arguments, which default to None |
| `Transforms.RandomScale.SampleTransform` | fastaug/transforms.py:137-145 | sampling fails as the range check says, leaving the state alone; otherwise the state records the two sampled factors and their matrix |
| `Transforms.DefaultScaleCannotSample` | fastaug/transforms.py:121-143 | a RandomScale built with its defaults fails to sample: its y-draw is an array, so building the matrix raises |
| `Transforms.RandomPerspective.constructor` | fastaug/transforms.py:171-173 | the tilt range is stored as given |
| `Transforms.RandomPerspective.SampleTransform` | fastaug/transforms.py:175-176 | sampling raises NotImplementedError |
| `Transforms.StubTransform.SampleTransform` | fastaug/transforms.py:153-207 | RandomCrop's sampling raises NotImplementedError (153-154); Pad's and CenterCrop's do nothing (184-185, 206-207) |
| `Transforms.StubTransform.ApplyImage` | fastaug/transforms.py:156-211 | every placeholder raises NotImplementedError on an image (156-158, 187-189, 209-211) |
| `Transforms.StubTransform.ApplyMask` | fastaug/transforms.py:160-214 | every placeholder raises NotImplementedError on a mask (160-161, 191-192, 213-214) |
| `Transforms.StubTransform.ApplyPoints` | fastaug/transforms.py:166-220 | every placeholder raises NotImplementedError on keypoints (166-167, 197-198, 219-220) |
| `Transforms.StubTransform.ApplyLabels` | fastaug/transforms.py:163-217 | RandomCrop and Pad return labels unchanged (163-164, 194-195); CenterCrop raises NotImplementedError (216-217) |

## Left out

- Image and mask flipping (`cv2.flip`, fastaug/transforms.py:24, 28): a call into OpenCV, whose semantics are not part of this model.
- The random draws (`np.random.uniform`): the sampled values are method parameters. They must lie between the two ends of a range that can be sampled. Seeding and the distribution are not modelled.
- Trigonometry in `RandomRotate`: the cosine and sine of the sampled angle are parameters `c` and `s` of `Transforms.RandomRotate.SampleTransform`. Converting degrees to radians is not modelled.
- Floating point: matrices and sampled values are reals. The `float32` cast of the matrix is not modelled, so the model's recorded values equal the matrix entries exactly.
- Keypoint coordinates, H and W are unbounded integers. Integer overflow of NumPy's fixed-width dtypes and float coordinates are not modelled.
- `Transforms.RandomFlip.ApplyPoints` requires a buffer of exactly two columns, the (x, y) pairs of a KeyPoints. Wider buffers are not modelled.
- `KeyPoints` and `img_shape_checker` live in `data.py`, which is not part of this model. The KeyPoints constructor is modelled as storing the buffer it is given.
- `Transforms.StubTransform.ApplyImage` always reports NotImplemented. For an image that is not rank 3, `img_shape_checker` may raise its own error first. That error is not modelled. Either way, the call fails.
- `BaseTransform` and `MatrixTransform` (activation probability, dispatch to the `_apply_*` methods, recentring the matrix on the image centre, the warp, and `RandomPerspective`'s inherited apply methods) live in `base_transforms.py`, which is not part of this model. The constructor arguments `p`, `interpolation` and `padding` are passed there and are not modelled.
- The constructor arguments of the placeholders are dropped. `crop_size` and `pad_to` are stored and never read by the code shown. `RandomCrop`'s `pad` is not even stored.
- Nested range arguments: a ragged nesting is taken to make the draw raise, as NumPy does from version 1.24. Older versions build an object array, and the failure then comes later, when the matrix is built. Either way, sampling raises.
- Range arguments are None, integers, floats or pairs. Tuples of other lengths, lists, strings and booleans are not modelled, and neither are `isdigit`'s non-ASCII digits.
