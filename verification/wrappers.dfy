/** Option and Result, used for Go's nil-able error values and for the
    (value, error) pairs returned by the collaborators the model leaves out. */
module Wrappers {

  datatype Option<+T> = None | Some(value: T)

  datatype Result<+R, +E> = Success(value: R) | Failure(error: E)
}
