/** Option and Result values: the model's stand-in for Python's `None` and for
    an exception that aborts a call. */
module Outcomes {

  datatype Option<+T> = None | Some(value: T)

  datatype Result<+T, +E> = Success(value: T) | Failure(error: E)
}
