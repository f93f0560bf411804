/** Option and Result: the model's stand-ins for Go's nil pointers and `error` returns. */
module Wrappers {
  datatype Option<+T> = None | Some(value: T)

  datatype Result<+T> = Success(value: T) | Failure(error: string)
}
