/** Optional values and results with an error, shared by the other modules. */
module Wrappers {

  /** A value that may be absent: a table row that `fetchone` did not find. */
  datatype Option<+T> = None | Some(value: T)

  /** The outcome of a calculation that either yields a value or raises an error. */
  datatype Result<+R, +E> = Success(value: R) | Failure(error: E)
}
