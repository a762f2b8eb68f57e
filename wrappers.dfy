/** Option and Result, the two wrappers every module of the model uses. */
module Wrappers {

  /** A value that may be absent (Python's None). */
  datatype Option<+T> = None | Some(value: T)

  /** The tagged success-or-error payload each engine operation returns. */
  datatype Result<+T, +E> = Ok(value: T) | Err(error: E)
}
