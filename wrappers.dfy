/** Optional values and results carrying an error, for the places where the
    source returns None or raises a validation error. */
module Wrappers {

  datatype Option<+T> = None | Some(value: T)

  datatype Result<+R, +E> = Success(value: R) | Failure(error: E)
}
