/** Option and Result datatypes shared by the other modules. */
module Wrappers {

  /** A value that may be absent. */
  datatype Option<+T> = None | Some(value: T)

  /** Either a value or the error that stood in its way. */
  datatype Result<+T, +E> = Success(value: T) | Failure(error: E)
}
