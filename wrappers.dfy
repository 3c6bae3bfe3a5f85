/** Failure-carrying datatypes used throughout the model: a JavaScript `throw`
    becomes an `Err` (or `Fail`) value carrying the reason. */
module Wrappers {

  /** A value that may be absent: a missing key, or a hole in an array. */
  datatype Option<+T> = None | Some(value: T)

  /** The outcome of an operation that returns a value or throws. */
  datatype Result<+T, +E> = Ok(value: T) | Err(error: E)

  /** The outcome of an operation that returns nothing useful (a chained
      `this`) or throws. */
  datatype Outcome<+E> = Pass | Fail(error: E)
}
