/** Failure-compatible helper datatypes shared by every module of the model. */
module Wrappers {

  /** A value that may be absent (JavaScript's `undefined` / `null`). */
  datatype Option<+T> = None | Some(value: T)

  /** The outcome of a step that either succeeds with a value or stops with an error value. */
  datatype Result<+R, +E> = Ok(value: R) | Err(error: E)
}
