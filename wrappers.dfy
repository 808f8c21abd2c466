/** Optional values and results: the classifier's `null`, absent state slots,
    and a step that either produces a value or throws. */
module Wrappers {

  datatype Option<+T> = None | Some(value: T)

  datatype Result<+T, +E> = Success(value: T) | Failure(error: E)
}
