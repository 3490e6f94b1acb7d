/** Option and Result, the two failure-carrying wrappers the rest of the model uses. */
module Wrappers {

  /** A value that may be absent (JavaScript's `undefined` or `null`). */
  datatype Option<+T> = None | Some(value: T)

  /** The outcome of a step that either returns a value or throws an exception. */
  datatype Result<+T, +E> = Ok(value: T) | Err(error: E)
}
