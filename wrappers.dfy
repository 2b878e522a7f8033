/** Option and Result, used for Java's nullable references and for the exceptions the platform stubs throw. */
module Wrappers {

  /** A reference that may be null in the source. */
  datatype Option<+T> = None | Some(value: T)

  /** The outcome of a call that may throw: `Failure` carries the exception's message. */
  datatype Result<+R, +E> = Success(value: R) | Failure(error: E)
}
