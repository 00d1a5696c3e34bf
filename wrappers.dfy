/** Optional values and results: a Java reference that may be null, a boxed value that may be absent, a call that may throw. */
module Wrappers {

  datatype Option<+T> = None | Some(value: T)

  datatype Result<+T, +E> = Success(value: T) | Failure(error: E)
}
