/** Option and Result, used for the nil pointers and the `(value, error)` returns of the API layer. */
module Wrappers {

  datatype Option<+T> = None | Some(value: T)

  datatype Result<+R, +E> = Success(value: R) | Failure(error: E)
}
