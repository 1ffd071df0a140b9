// Small value wrappers shared by every module of the model: a Java
// reference that may be null, the outcome of an operation that may throw,
// and the exceptions the modelled code raises.
module Wrappers {

  /** A Java reference that may be null. */
  datatype Option<+T> = None | Some(value: T)

  /** A value-returning Java operation that either returns or throws. */
  datatype Result<+T, +E> = Success(value: T) | Failure(error: E)

  /** A void Java operation that either returns normally or throws. */
  datatype Outcome<+E> = Pass | Fail(error: E)

  /** The unchecked exceptions the modelled code raises or lets escape. */
  datatype Exception =
    | NullPointerException
    | IllegalArgumentException
    | IllegalStateException
    | IndexOutOfBoundsException
}
