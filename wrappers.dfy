/** Failure-carrying values used in place of the C++ exceptions and null key handles. */
module Wrappers {

  /** A value that may be absent: a parser that returned NULL, a key that is not in a map. */
  datatype Option<+T> = None | Some(value: T)

  /** The outcome of an operation that may throw: its value, or the error it raised. */
  datatype Result<+R, +E> = Success(value: R) | Failure(error: E)
}
