/** Failure-carrying datatypes used throughout the model. */
module Wrappers {

  /** A value that may be absent: a Go nil pointer or an unset timestamp. */
  datatype Option<+T> = None | Some(value: T)

  /** A value or an error, for Go's `(value, error)` returns. */
  datatype Result<+T, +E> = Success(value: T) | Failure(error: E)

  /** Go's bare `error` return: nil, or an error. */
  datatype Outcome<+E> = Pass | Fail(error: E)
}
