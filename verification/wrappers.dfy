/** Failure-carrying values: `Option` for an optional value and `Result` for an
    operation that either produces a value or raises an error. */
module Wrappers {

  datatype Option<+T> = None | Some(value: T)

  datatype Result<+R, +E> = Success(value: R) | Failure(error: E)
}
