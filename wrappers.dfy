/** Option and Result, the two failure-carrying shapes the provider model uses. */
module Wrappers {

  /** A value that may be absent: a Go `nil` interface value is `None`. */
  datatype Option<+T> = None | Some(value: T)

  /** The `(value, error)` pair of a Go call: exactly one of the two is meaningful. */
  datatype Result<+R, +E> = Success(value: R) | Failure(error: E)
}
