/** Option and Result, the stock failure-carrying datatypes used throughout the model. */
module Wrappers {

  /** None stands for Go's nil (a nil map, a nil pointer, a nil error). */
  datatype Option<+T> = None | Some(value: T)

  datatype Result<+R, +E> = Success(value: R) | Failure(error: E)
}
