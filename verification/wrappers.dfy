/** Failure-carrying values shared by the other modules. */
module Wrappers {

  /** A value that may be absent, like a missing map entry in JavaScript. */
  datatype Option<+T> = None | Some(value: T)

  /** Either a computed value or the reason it could not be computed. */
  datatype Result<+R, +E> = Success(value: R) | Failure(error: E)
}
