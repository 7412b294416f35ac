/** Option for the source's nullable values, Result for "returns a value or throws an ECommerceException". */
module Wrappers {

  datatype Option<+T> = None | Some(value: T)

  datatype Result<+T, +E> = Success(value: T) | Failure(error: E)
}
