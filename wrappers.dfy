/** Option and Result, used for Python's `None` and for the exceptions the
    experiment script lets propagate. */
module Wrappers {

  datatype Option<+T> = None | Some(value: T)

  datatype Result<+R, +E> = Success(value: R) | Failure(error: E)
}
