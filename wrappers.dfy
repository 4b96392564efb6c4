/** Failure-carrying results shared by the acquisition controller and the board driver. */
module Wrappers {

  /** A value that may be absent (Python's `Optional`). */
  datatype Option<+T> = None | Some(value: T)

  /** A computed value, or the error that the Python code raises instead. */
  datatype Result<+R, +E> = Success(value: R) | Failure(error: E)

  /** An operation that returns nothing on success, or the error it raises. */
  datatype Outcome<+E> = Pass | Fail(error: E)
}
