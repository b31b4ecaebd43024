/** Optional values and success/failure results shared by the invoice model. */
module Wrappers {

  /** An optional value: an argument that may be left out by the caller, or a field that may be null. */
  datatype Option<+T> = None | Some(value: T)

  /** Either a computed value or the error an operation raised instead. */
  datatype Result<+R, +E> = Success(value: R) | Failure(error: E)
}
