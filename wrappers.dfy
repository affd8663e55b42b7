/** Failure-compatible wrappers used throughout the model: a missing value
    (`None` in Python) and the result of an operation that may raise. */
module Wrappers {

  datatype Option<+T> = None | Some(value: T)

  datatype Result<+R, +E> = Success(value: R) | Failure(error: E)
}
