/** Failure-carrying values used to model JavaScript's undefined and thrown errors. */
module Wrappers {

  /** A value that may be absent (`undefined` or `null` in the source). */
  datatype Option<+T> = None | Some(value: T)

  /** A computation that produced a value or threw an error. */
  datatype Result<+R, +E> = Success(value: R) | Failure(error: E)

  /** A computation with no value that completed or threw an error. */
  datatype Outcome<+E> = Pass | Fail(error: E)
}
