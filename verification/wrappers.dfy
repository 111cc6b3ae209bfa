/** Absence and failure values shared by every module of the model. */
module Wrappers {

  /** A value that may be missing: SQL NULL, a JavaScript `undefined`, an empty query result. */
  datatype Option<+T> = None | Some(value: T)

  /** The outcome of an operation that can fail with an error value. */
  datatype Result<+R, +E> = Success(value: R) | Failure(error: E)
}
