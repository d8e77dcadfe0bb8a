/** Plain wrappers: a nullable value and an exception-or-value. */
module Wrappers {

  /** A value that may be absent (the source's `int?` and null references). */
  datatype Option<+T> = None | Some(value: T)

  /** Either a value or the exception the source throws instead. */
  datatype Result<+T, +E> = Success(value: T) | Failure(error: E)
}
