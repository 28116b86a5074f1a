/** Optional values and error-carrying results, used for the Go code's
    `(value, error)` returns and its nil pointers. */
module Wrappers {

  datatype Option<+T> = None | Some(value: T)

  datatype Result<+R, +E> = Success(value: R) | Failure(error: E)
}
