/** Option and Result, the two wrappers the model uses. */
module Wrappers {

  /** A value that may be missing, such as Python's `str | None`. */
  datatype Option<+T> = None | Some(value: T)

  /** The outcome of an operation that may raise: its value, or the error it raises. */
  datatype Result<+T, +E> = Ok(value: T) | Err(error: E)
}
