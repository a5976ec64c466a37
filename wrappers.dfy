/** Option and Result, the two failure-carrying datatypes used throughout the model. */
module Wrappers {

  datatype Option<+T> = None | Some(value: T)

  /** A computation that either produced a value or stopped with an error
      (the model's stand-in for a raised Python exception). */
  datatype Result<+R, +E> = Success(value: R) | Failure(error: E)
}
