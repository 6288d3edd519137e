/** Failure-carrying values used across the model. */
module Wrappers {

  /** A value that may be absent; `None` stands for Go's `nil` error. */
  datatype Option<+T> = None | Some(value: T)

  /** A value or an error, as a Go `(value, err)` pair that is never both. */
  datatype Result<+T, +E> = Ok(value: T) | Err(error: E)
}
