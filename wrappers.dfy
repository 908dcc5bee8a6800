/** Option and Result, the two wrappers the model uses for absent arguments
    and for the outcome of a request. */
module Wrappers {

  /** An optional value: an argument the caller may leave out (Python's `None`). */
  datatype Option<+T> = None | Some(value: T)

  /** Either a value or the error that stopped the computation (a raised exception). */
  datatype Result<+T, +E> = Ok(value: T) | Err(error: E)
}
