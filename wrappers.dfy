/** Option and Result, used where the loader answers "nothing" or fails. */
module Wrappers {

  /** Some value, or nothing (Java's null). */
  datatype Option<+T> = None | Some(value: T)

  /** A value, or the error that was raised instead of it. */
  datatype Result<+R, +E> = Success(value: R) | Failure(error: E)
}
