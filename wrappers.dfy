/** Option and Result, the optional values and error returns used throughout the model. */
module Wrappers {

  /** A value that may be absent: a nil pointer field of the Go descriptor, or a failed parse. */
  datatype Option<+T> = None | Some(value: T)

  /** A Go `(value, error)` pair in which exactly one side is meaningful. */
  datatype Result<+T, +E> = Ok(value: T) | Err(error: E)
}
