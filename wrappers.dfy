/** Option and result values used across the model. */
module Wrappers {

  datatype Option<+T> = None | Some(value: T)

  /** A value or the error the Python code would have raised. */
  datatype Result<+R, +E> = Success(value: R) | Failure(error: E)
}
