/** Option and Result values: Go's "nil or a value" and "(value, error)" pairs. */
module Wrappers {

  /** A value that may be absent (a nil pointer, a nil func, an absent JSON field). */
  datatype Option<+T> = None | Some(value: T)

  /** The (value, error) pair a Go constructor returns, with exactly one half set. */
  datatype Result<+T, +E> = Success(value: T) | Failure(error: E)
}
