/** Failure-carrying wrappers shared by the authentication and webhook models. */
module Wrappers {

  /** A value that may be absent: a lookup that finds nothing, a token that does not decode. */
  datatype Option<+T> = None | Some(value: T)

  /** The outcome of an operation that either answers or raises an error. */
  datatype Result<+T, +E> = Success(value: T) | Failure(error: E)
}
