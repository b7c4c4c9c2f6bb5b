/** Option and Result: Java's null and thrown exceptions, as values. */
module Util {

  datatype Option<+T> = None | Some(value: T)

  datatype Result<+T, +E> = Success(value: T) | Failure(error: E)
}
