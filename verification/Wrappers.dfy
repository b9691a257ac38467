/** The two result types shared by the models: a value that may be missing, and
    a value or the error that stopped its computation. */
module Wrappers {

  datatype Option<+T> = None | Some(value: T)

  datatype Result<+T, +E> = Success(value: T) | Failure(error: E)
}
