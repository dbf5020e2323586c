/** Option and Result values for the nil values and error returns of the system. */
module Wrappers {

  /** A value that may be absent (a Go nil, a JS null). */
  datatype Option<+T> = None | Some(value: T)

  /** The outcome of an operation that can fail with an error of type E. */
  datatype Result<+T, +E> = Ok(value: T) | Err(error: E)
}
