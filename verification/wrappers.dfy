/** Optional values and results with an error, for JavaScript's null and thrown errors. */
module Wrappers {

  /** A value that may be absent (`null`, or a missing property). */
  datatype Option<+T> = None | Some(value: T)

  /** A computation that either produced a value or failed with an error. */
  datatype Result<+T, +E> = Success(value: T) | Failure(error: E)
}
