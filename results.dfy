/** The outcome of an operation that may raise an exception. */
module Results {

  /** Either the value the operation returns or the exception it raises. */
  datatype Result<+T, +E> = Ok(value: T) | Err(error: E)

  /** An optional value, as returned by a search that may find nothing. */
  datatype Option<+T> = None | Some(value: T)
}
