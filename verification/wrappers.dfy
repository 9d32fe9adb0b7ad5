/** Option and Result, shared by the meeting workflow model. */
module Wrappers {

  /** A value that may be absent: a JavaScript `null` or `undefined`. */
  datatype Option<+T> = None | Some(value: T)

  /** The outcome of a step that either succeeds with a value or stops with an error. */
  datatype Result<+T, +E> = Ok(value: T) | Err(error: E)
}
