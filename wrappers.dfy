/** Optional values and error-carrying results shared by the other modules. */
module Wrappers {

  /** Python's `Optional[T]`: `None` or a value. */
  datatype Option<T> = None | Some(value: T)

  /** The value of an operation, or the exception it raises. */
  datatype Result<T, E> = Success(value: T) | Failure(error: E)
}
