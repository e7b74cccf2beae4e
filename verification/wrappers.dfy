/** Failure-carrying values shared by the rest of the model. */
module Wrappers {

  /** A value that may be absent (JavaScript's `undefined` / `null`). */
  datatype Option<+T> = None | Some(value: T)

  /** The result of a step that either produces a value or throws with a message. */
  datatype Result<+R, +E> = Success(value: R) | Failure(error: E)
}
