/** Failure-carrying wrappers shared by the other modules. */
module Wrappers {

  /** A value that may be absent: Go's nil pointer or nil error. */
  datatype Option<+T> = None | Some(value: T)

  /** A value or an error, for Go's `(value, error)` returns. */
  datatype Result<+T, +E> = Success(value: T) | Failure(error: E)
}
