/** Option and Result: the "absent row" and "HTTP error" outcomes of the service. */
module Wrappers {

  datatype Option<+T> = None | Some(value: T)

  datatype Result<+R, +E> = Success(value: R) | Failure(error: E)

}
