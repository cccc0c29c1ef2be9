/** Option and Result, the failure-carrying datatypes used throughout the model. */
module Wrappers {

  datatype Option<+T> = None | Some(value: T)

  /** Outcome of an asynchronous call: the value it resolves with, or what it rejects with. */
  datatype Result<+R, +E> = Success(value: R) | Failure(error: E)
}
