/** Option and Result datatypes for the error returns of the exporter. */
module Wrappers {

  /** An optional value; `Some(e)` stands for a non-nil Go `error`. */
  datatype Option<+T> = None | Some(value: T)

  /** A value or an error, as a Go function returning `(T, error)`. */
  datatype Result<+T, +E> = Ok(value: T) | Err(error: E)
}
