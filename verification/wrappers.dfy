/** Failure-carrying values shared by every module of the model. */
module Wrappers {

  /** A value that may be missing (JavaScript's `undefined` array slot, a `null` match). */
  datatype Option<+T> = None | Some(value: T)

  /** The outcome of a step that either produces a value or throws. */
  datatype Result<+T, +E> = Ok(value: T) | Err(error: E)
}
