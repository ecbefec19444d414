/** Option and Result datatypes shared by the other modules. */
module Wrappers {

  /** A value that may be absent: a Go nil, a missing map entry or a nil error. */
  datatype Option<+T> = None | Some(value: T)

  /** A value or an error, for Go's (value, error) returns. */
  datatype Result<+T, +E> = Ok(value: T) | Err(error: E)
}
