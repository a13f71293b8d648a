/** Option and Result values standing for Go's nil pointers and `(value, error)` pairs. */
module Wrappers {

  datatype Option<+T> = None | Some(value: T)

  /** A Go `(value, error)` pair: either the value, or the error's `Error()` text. */
  datatype Result<+T> = Ok(value: T) | Err(message: string)
}
