/** Optional values and outcomes that may be an error, as Python's `None`
    and raised exceptions appear in the model. */
module Wrappers {

  datatype Option<T> = None | Some(value: T)

  /** The result of an operation that may raise: the value, or the error it raises. */
  datatype Result<T> = Success(value: T) | Failure(error: string)
}
