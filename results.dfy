/** Failure-carrying values shared by every module of the model. */
module Results {

  /** A value that may be absent (C#'s `null`). */
  datatype Option<+T> = None | Some(value: T)

  /** The outcome of an operation that can throw: a value or the exception it raised. */
  datatype Result<+T, +E> = Ok(value: T) | Err(error: E)
}
