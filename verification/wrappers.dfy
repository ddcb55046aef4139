/** Optional values (Python's None) and raised-or-returned results. */
module Wrappers {

  datatype Option<+T> = None | Some(value: T)

  /** A call that either returns a value or raises an exception with a message. */
  datatype Result<+R> = Success(value: R) | Failure(error: string)
}
