/** Failure-carrying result values, standing in for Go's `(value, error)` pairs. */
module Results {

  datatype Option<+T> = None | Some(value: T)

  /** The outcome of a call to the remote service: a value, or the error it reported. */
  datatype Result<+T, +E> = Ok(value: T) | Err(error: E)
}
