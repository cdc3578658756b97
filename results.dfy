/** Failure-carrying values: a parse that may not succeed, and a computation that may raise. */
module Results {

  datatype Option<+T> = None | Some(value: T)

  /** Ok carries the value computed; Err the exception that would have been raised. */
  datatype Result<+T, +E> = Ok(value: T) | Err(error: E)
}
