/** Optional values and outcomes that either carry a value or an error. */
module Wrappers {

  /** A value that may be absent (`undefined` or `null` in the dashboard's TypeScript). */
  datatype Option<+T> = None | Some(value: T)

  /** The outcome of an operation that either returns a value or throws an error. */
  datatype Result<+T, +E> = Success(value: T) | Failure(error: E)
}
