/** Option and Result, the two failure-carrying wrappers the model uses for
    Ruby's nil results and raised exceptions. */
module Wrappers {

  datatype Option<+T> = None | Some(value: T)

  datatype Result<+R, +E> = Success(value: R) | Failure(error: E)
}
