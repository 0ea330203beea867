/** Optional values and success/failure results, used where the Python code
    passes `None` or raises an exception. */
module Wrappers {

  /** A value that may be absent, as a Python argument defaulting to `None`. */
  datatype Option<+T> = None | Some(value: T)

  /** The outcome of an operation that either returns a value or raises. */
  datatype Result<+R, +E> = Success(value: R) | Failure(error: E)
}
