/** Failure-compatible result types shared by every module of the model. */
module Wrappers {

  /** A value that may be absent: Go's nil pointer or `(v, false)` lookup. */
  datatype Option<+T> = None | Some(value: T)

  /** A value or an error: Go's `(v, err)` pair. */
  datatype Result<+T, +E> = Ok(value: T) | Err(error: E)
}
