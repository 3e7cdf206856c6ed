/** Option and Result, the two ways a Go call in this model reports "no value" or an error. */
module Wrappers {

  datatype Option<+T> = None | Some(value: T)

  /** A call that yields either a value or an `error`, like Go's `(T, error)` when the
      value is meaningless on failure. */
  datatype Result<+T, +E> = Success(value: T) | Failure(error: E)
}
