/** Option and Result, the failure-carrying values the codec returns. */
module Wrappers {

  datatype Option<+T> = None | Some(value: T)

  /** A value or an error, in the place of Go's `(T, error)` pairs. */
  datatype Result<+T, +E> = Success(value: T) | Failure(error: E)
}
