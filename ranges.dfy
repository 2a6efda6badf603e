/** Range arguments of RandomShear, RandomScale and RandomRotate: how the
    shear and scale constructors normalise them, and which stored ranges
    NumPy can sample from. */
module Ranges {
  import opened Outcomes

  /** A range argument as a constructor receives it and as it is stored:
      None, an integer, a float, or a pair whose components are themselves
      such values (a normalised y-range can hold a pair inside a pair). */
  datatype Bound = NoneArg | Int(i: int) | Float(f: real) | Pair(fst: Bound, snd: Bound)

  /** `str(b).isdigit()`: the decimal text of a non-negative integer is all
      digits; a negative integer has a '-', a float a '.', a pair brackets. */
  predicate IsDigit(b: Bound)
  {
    b.Int? && b.i >= 0
  }

  /** The constructors' rewriting of (range_x, range_y), step for step: None
      becomes 1; a digit x becomes (x, x); a digit y becomes (x', y), where x'
      is the x-range as already rewritten. */
  function NormaliseRanges(rangeX: Bound, rangeY: Bound): (Bound, Bound)
  {
    var x0 := if rangeX.NoneArg? then Int(1) else rangeX;
    var y0 := if rangeY.NoneArg? then Int(1) else rangeY;
    var x1 := if IsDigit(x0) then Pair(x0, x0) else x0;
    var y1 := if IsDigit(y0) then Pair(x1, y0) else y0;
    (x1, y1)
  }

  predicate IsNumber(b: Bound)
  {
    b.Int? || b.Float?
  }

  function Value(b: Bound): real
    requires IsNumber(b)
  {
    if b.Int? then b.i as real else b.f
  }

  /** The rank of the array NumPy reads from a bound: 0 for a number, one more
      than its components' rank for a pair of two components of equal rank,
      and -1 for a bound it cannot read (None, or a ragged nesting such as
      ((1, 1), 1)). */
  function Rank(b: Bound): int
  {
    match b
    case NoneArg => -1
    case Int(_) => 0
    case Float(_) => 0
    case Pair(fst, snd) =>
      var k := Rank(fst);
      if k >= 0 && k == Rank(snd) then k + 1 else -1
  }

  /** NumPy can read b as a number or as a regular array. */
  predicate Regular(b: Bound)
  {
    Rank(b) >= 0
  }

  /** `np.random.uniform(r[0], r[1])` returns without raising: r is a pair, so
      it can be indexed, and both ends are regular. All components of a
      bound have length 2, so any two regular ends broadcast together. */
  predicate Drawable(r: Bound)
  {
    r.Pair? && Regular(r.fst) && Regular(r.snd)
  }

  /** The draw is one number: r is a pair of numbers. A drawable range with a
      pair among its ends yields an array instead. */
  predicate Sampleable(r: Bound)
  {
    r.Pair? && IsNumber(r.fst) && IsNumber(r.snd)
  }

  function Min(a: real, b: real): real { if a <= b then a else b }
  function Max(a: real, b: real): real { if a <= b then b else a }

  /** v is a value uniform sampling between the two ends of r can return; the
      ends may come in either order. */
  predicate Within(r: Bound, v: real)
    requires Sampleable(r)
  {
    Min(Value(r.fst), Value(r.snd)) <= v <= Max(Value(r.fst), Value(r.snd))
  }

  /** One draw from a stored range: it raises, naming that range, unless the
      range is a pair with regular ends. */
  function Draw(r: Bound, name: RangeName): (o: Outcome)
    ensures o.Pass? <==> Drawable(r)
    ensures o.Fail? ==> o.error == IllFormedRange(name)
  {
    if Drawable(r) then Pass else Fail(IllFormedRange(name))
  }

  /** Sampling one stored range and building the matrix from the draw
      (RandomRotate): the draw raises first if the range is not drawable;
      otherwise building the matrix raises if the draw is an array. */
  function CheckRange(r: Bound, name: RangeName): (o: Outcome)
    ensures o.Pass? <==> Sampleable(r)
    ensures !Drawable(r) ==> o == Fail(IllFormedRange(name))
    ensures Drawable(r) && !Sampleable(r) ==> o == Fail(NonScalarSample)
  {
    var d := Draw(r, name);
    if d.Fail? then d else if Sampleable(r) then Pass else Fail(NonScalarSample)
  }

  /** Sampling draws from the x-range first and from the y-range second, and
      only then builds the matrix: a range that cannot be drawn from raises
      first, in that order; a draw that came back as an array raises when the
      matrix is built. */
  function CheckRanges(rangeX: Bound, rangeY: Bound): (r: Outcome)
    ensures r.Pass? <==> Sampleable(rangeX) && Sampleable(rangeY)
    ensures !Drawable(rangeX) ==> r == Fail(IllFormedRange(RangeX))
    ensures Drawable(rangeX) && !Drawable(rangeY) ==> r == Fail(IllFormedRange(RangeY))
    ensures Drawable(rangeX) && Drawable(rangeY) && r.Fail? ==> r == Fail(NonScalarSample)
  {
    var x := Draw(rangeX, RangeX);
    if x.Fail? then x
    else
      var y := Draw(rangeY, RangeY);
      if y.Fail? then y
      else if Sampleable(rangeX) && Sampleable(rangeY) then Pass
      else Fail(NonScalarSample)
  }

  /** A drawable nested x-range does not raise on its own: with x given as
      ((1, 1), (2, 2)) and y as -2, the y-range is the one reported. */
  lemma NestedXRangeReportsY()
    ensures CheckRanges(Pair(Pair(Int(1), Int(1)), Pair(Int(2), Int(2))), Int(-2)) == Fail(IllFormedRange(RangeY))
  {
  }

  /** A missing bound is treated exactly like the integer 1. */
  lemma NoneMeansOne(rangeX: Bound, rangeY: Bound)
    ensures NormaliseRanges(NoneArg, rangeY) == NormaliseRanges(Int(1), rangeY)
    ensures NormaliseRanges(rangeX, NoneArg) == NormaliseRanges(rangeX, Int(1))
  {
  }

  /** A non-negative integer x-bound v becomes the degenerate range (v, v),
      which samples to exactly v. */
  lemma DigitXBecomesDegenerate(v: Bound, rangeY: Bound)
    requires IsDigit(v)
    ensures NormaliseRanges(v, rangeY).0 == Pair(v, v)
    ensures Sampleable(NormaliseRanges(v, rangeY).0)
    ensures forall s :: Within(NormaliseRanges(v, rangeY).0, s) <==> s == v.i as real
  {
  }

  /** A non-negative integer y-bound w becomes (x', w), whose first component
      is the whole normalised x-range x', not its lower end. */
  lemma DigitYTakesWholeNormalisedX(rangeX: Bound, w: Bound)
    requires IsDigit(w)
    ensures NormaliseRanges(rangeX, w).1 == Pair(NormaliseRanges(rangeX, w).0, w)
  {
  }

  /** Anything that is neither None nor a non-negative integer (a pair, a
      negative integer, a float) is stored as given. */
  lemma OtherBoundsStoredUnchanged(rangeX: Bound, rangeY: Bound)
    ensures !rangeX.NoneArg? && !IsDigit(rangeX) ==> NormaliseRanges(rangeX, rangeY).0 == rangeX
    ensures !rangeY.NoneArg? && !IsDigit(rangeY) ==> NormaliseRanges(rangeX, rangeY).1 == rangeY
  {
  }

  /** Worked instances of NoneMeansOne, DigitXBecomesDegenerate and
      DigitYTakesWholeNormalisedX: the defaults (None, None) give x = (1, 1)
      and y = ((1, 1), 1); with x = 2 and y = 3 the y-range is ((2, 2), 3),
      not (2, 3). */
  lemma NormalisedExamples()
    ensures NormaliseRanges(NoneArg, NoneArg) == (Pair(Int(1), Int(1)), Pair(Pair(Int(1), Int(1)), Int(1)))
    ensures NormaliseRanges(Int(2), Int(3)) == (Pair(Int(2), Int(2)), Pair(Pair(Int(2), Int(2)), Int(3)))
  {
  }

  /** Consequence of the asymmetric rule: when the y-range is given as None or
      as a non-negative integer, the two normalised ranges are never both
      sampleable, so sampling raises whatever the x-range is. When the x-range
      too is None or a non-negative integer, both draws succeed and the y-draw
      is an array, so it is building the matrix that raises. */
  lemma ScalarYRangeNeverSamples(rangeX: Bound, rangeY: Bound)
    requires rangeY.NoneArg? || IsDigit(rangeY)
    ensures CheckRanges(NormaliseRanges(rangeX, rangeY).0, NormaliseRanges(rangeX, rangeY).1).Fail?
    ensures rangeX.NoneArg? || IsDigit(rangeX) ==>
      CheckRanges(NormaliseRanges(rangeX, rangeY).0, NormaliseRanges(rangeX, rangeY).1) == Fail(NonScalarSample)
  {
    var (x, y) := NormaliseRanges(rangeX, rangeY);
    if Sampleable(x) {
      assert y == Pair(x, if rangeY.NoneArg? then Int(1) else rangeY);
      assert !IsNumber(y.fst);
    }
  }

  /** Ranges given as pairs of numbers are stored as given and can be sampled. */
  lemma PairRangesSample(rangeX: Bound, rangeY: Bound)
    requires Sampleable(rangeX) && Sampleable(rangeY)
    ensures NormaliseRanges(rangeX, rangeY) == (rangeX, rangeY)
    ensures CheckRanges(rangeX, rangeY) == Pass
  {
  }
}
