/** Option and Result, the two wrappers every other module uses for absent values and error paths. */
module Basics {

  /** A value that may be absent (a missing property, a `null` return). */
  datatype Option<+T> = None | Some(value: T)

  /** Either a value or the error the source throws instead of returning one. */
  datatype Result<+T, +E> = Success(value: T) | Failure(error: E)
}
