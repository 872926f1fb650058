/** Option and Result, used for optional request headers and for the
    exceptions the request pipeline throws and catches. */
module Wrappers {

  datatype Option<+T> = None | Some(value: T)

  datatype Result<+R, +E> = Success(value: R) | Failure(error: E)
}
