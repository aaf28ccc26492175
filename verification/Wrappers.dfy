/** Failure-carrying values used throughout the model. */
module Wrappers {
  datatype Option<+T> = None | Some(value: T)

  /** A Go call that returns `error` only: nil, or one of the errors the model tells apart. */
  datatype Outcome<+E> = Nil | Err(error: E)

  /** A Go call that returns a value and an `error`. */
  datatype Result<+T, +E> = Ok(value: T) | Fail(error: E)
}
