/** The optional value used throughout the model for Python's `None`-or-value results, and a result that may be an exception. */
module Wrappers {
  datatype Option<+T> = None | Some(value: T)

  /** A Python call that returned `value`, or raised an exception whose `str()` is `error`. */
  datatype Result<+T> = Success(value: T) | Failure(error: string)
}
