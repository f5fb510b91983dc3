/** Failure-carrying result types used in place of Python's exceptions. */
module Wrappers {

  /** A lookup that may find nothing (a dictionary lookup raising KeyError). */
  datatype Option<+T> = None | Some(value: T)

  /** A value, or the error a Python call would have raised instead. */
  datatype Result<+R, +E> = Success(value: R) | Failure(error: E)

  /** The outcome of a call that returns nothing on success. */
  datatype Outcome<+E> = Pass | Fail(error: E)
}
