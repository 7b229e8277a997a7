/** Optional values and results with an error, used for the handler's
    nullable JSON fields and for the failures it lets escape. */
module Wrappers {

  datatype Option<+T> = None | Some(value: T)

  datatype Result<+R, +E> = Success(value: R) | Failure(error: E)
}
