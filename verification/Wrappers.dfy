/** The option and result types shared by the other modules. */
module Wrappers {
  datatype Option<+T> = None | Some(value: T)

  /** A returned value, or the error a call of the original would throw. */
  datatype Result<+T, +E> = Success(value: T) | Failure(error: E)
}
