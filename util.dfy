/** Failure-compatible wrappers used throughout the model. */
module Util {

  /** Presence or absence of a value (a Go nil pointer is `None`). */
  datatype Option<+T> = None | Some(value: T)

  /** A Go `(value, error)` pair: exactly one of the two is meaningful. */
  datatype Result<+T, +E> = Ok(value: T) | Err(error: E)
}
