/** Optional values and results, standing in for Python's None and for exceptions. */
module Wrappers {

  datatype Option<+T> = None | Some(value: T)

  /** The outcome of a call into code outside the model: a value, or the text of the exception it raised. */
  datatype Result<+T, +E> = Success(value: T) | Failure(error: E)
}
