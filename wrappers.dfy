/** Optional values and results with an error, used for a page response
    without a `docs` field and for a request that raised. */
module Wrappers {

  datatype Option<+T> = None | Some(value: T)

  datatype Result<+T, +E> = Success(value: T) | Failure(error: E)
}
