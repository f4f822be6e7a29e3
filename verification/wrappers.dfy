/** Option and Result, the failure-carrying values the handlers return. */
module Wrappers {

  datatype Option<+T> = None | Some(value: T)

  /** Either a value or the response an early exit sends instead. */
  datatype Result<+T, +E> = Success(value: T) | Failure(error: E)
}
