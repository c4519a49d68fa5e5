/** Optional values and success/failure results, used for Python's `None` and
    for the exceptions the modelled handlers raise. */
module Wrappers {

  datatype Option<+T> = None | Some(value: T)

  datatype Result<+R, +E> = Success(value: R) | Failure(error: E)
}
