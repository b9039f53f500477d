/** Optional values and success/failure results, standing in for JavaScript's
    `null` and for the error branches of the form handlers. */
module Wrappers {

  datatype Option<+T> = None | Some(value: T)

  datatype Result<+T, +E> = Ok(value: T) | Err(error: E)
}
