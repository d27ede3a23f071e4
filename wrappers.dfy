/** `Option` and `Result`, shared by the modules of this model. */
module Wrappers {

  /** A value that may be absent: a missing map key, a failed type assertion. */
  datatype Option<+T> = None | Some(value: T)

  /** A value or an error, the shape of Go's `(T, error)` returns. */
  datatype Result<+T, +E> = Ok(value: T) | Err(error: E)
}
