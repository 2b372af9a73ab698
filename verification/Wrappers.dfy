/** The two result types every module shares. */
module Wrappers {

  /** A value that may be missing: a NULL column, an absent row. */
  datatype Option<+T> = None | Some(value: T)

  /** A value, or the reason there is none: the model of a Python exception. */
  datatype Result<+T, +E> = Success(value: T) | Failure(error: E)
}
