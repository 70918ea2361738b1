/** Optional values and results with an error, used for the source's `undefined`
    lookups and for the exceptions it lets escape. */
module Wrappers {

  datatype Option<+T> = None | Some(value: T)

  datatype Result<+R, +E> = Success(value: R) | Failure(error: E)
}
