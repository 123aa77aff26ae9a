/** `undefined` and thrown errors of the JavaScript source, as values. */
module Wrappers {

  /** A value that may be `undefined`. */
  datatype Option<T> = None | Some(value: T)

  /** The outcome of a call that may throw: its value, or the error it throws. */
  datatype Result<T, E> = Success(value: T) | Failure(error: E)
}
