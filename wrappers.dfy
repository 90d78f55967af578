/** Option and Result datatypes used by the flattening model. */
module Wrappers {

  /** A value that may be missing; `None` plays the part of JavaScript's `undefined`. */
  datatype Option<+T> = None | Some(value: T)

  /** The outcome of an evaluation that may throw. */
  datatype Result<+T, +E> = Success(value: T) | Failure(error: E)
}
