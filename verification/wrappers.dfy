/** Failure-carrying result types shared by every module of the model. */
module Wrappers {

  /** A value that may be absent: Go's `(x, ok)` pairs and nil pointers. */
  datatype Option<+T> = None | Some(value: T)

  /** A value or an error: Go's `(x, err)` pairs. */
  datatype Result<+T, +E> = Success(value: T) | Failure(error: E)

  /** An error or nothing: Go functions that return only `error`. */
  datatype Outcome<+E> = Pass | Fail(error: E)
}
