/** Failure-carrying wrappers used in place of Python's None returns and raised exceptions. */
module Results {

  /** A value that may be absent (Python's Optional). */
  datatype Option<+T> = None | Some(value: T)

  /** A value, or the error that a Python function would have raised instead. */
  datatype Result<+T, +E> = Success(value: T) | Failure(error: E)

  /** Success without a value, or the error raised. */
  datatype Outcome<+E> = Pass | Fail(error: E)
}
