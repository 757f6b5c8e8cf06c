/** Option and Result types for values that may be absent and operations that may fail. */
module Wrappers {

  /** A value that may be absent. */
  datatype Option<+T> = None | Some(value: T)

  /** Either a value or the error that prevented computing it. */
  datatype Result<+T, +E> = Success(value: T) | Failure(error: E)
}
