/** Failures raised by the transforms, and the values that carry them. */
module Outcomes {

  /** Which stored range a sampling step tried to read. */
  datatype RangeName = RangeX | RangeY | RotationRange

  /** The failures the transforms raise: NotImplementedError; the error raised
      while drawing from a stored range (indexing a range that is not a pair,
      or handing NumPy an end it cannot read as a number or a regular array);
      and the error raised when a draw came back as an array rather than a
      number, so that the 3 x 3 matrix cannot be built from it. */
  datatype Failure = NotImplemented | IllFormedRange(range: RangeName) | NonScalarSample

  /** The value an operation returns, or the failure it raises. */
  datatype Result<T> = Ok(value: T) | Err(error: Failure)

  /** Success or failure of an operation that returns nothing. */
  datatype Outcome = Pass | Fail(error: Failure)
}
