/** Option and Result values used across the model for JavaScript's `undefined`/`null`
    fields and for Python's raised exceptions. */
module Wrappers {

  datatype Option<+T> = None | Some(value: T)

  datatype Result<+R, +E> = Success(value: R) | Failure(error: E)
}
