/** Option and Result values used for the engine's "maybe" and "throws" outcomes. */
module Wrappers {

  datatype Option<+T> = None | Some(value: T)

  /** A computation that either produces a value or raises an error with a message. */
  datatype Result<+T> = Success(value: T) | Failure(error: string)
}
