/** Option and Result values shared by every module of the model. */
module Wrappers {

  /** A value that may be absent (Python `None`, Go `nil`). */
  datatype Option<+T> = None | Some(value: T)

  /** Either a value or an error (a Python exception, a Go `error`). */
  datatype Result<+T, +E> = Ok(value: T) | Err(error: E)
}
