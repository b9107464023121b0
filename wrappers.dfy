/** Option and Result: the failure-carrying values the comparison model returns
    where the Go code panics. */
module Wrappers {

  datatype Option<+T> = None | Some(value: T)

  datatype Result<+R, +E> = Success(value: R) | Failure(error: E)
}
