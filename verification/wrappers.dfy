/** Optional values and results with an error, used wherever the Python code
    returns None, catches an exception or lets one escape. */
module Wrappers {

  datatype Option<+T> = None | Some(value: T)

  datatype Result<+T, +E> = Success(value: T) | Failure(error: E)
}
