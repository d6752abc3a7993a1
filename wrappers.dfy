/** Option and Result, the two failure-carrying shapes the client uses. */
module Wrappers {

  /** Python's `None` or a value. */
  datatype Option<+T> = None | Some(value: T)

  /** A value, or the error text the client would put under an "error" key. */
  datatype Result<+T> = Success(value: T) | Failure(error: string)
}
