/** The source's fallible returns. */
module Results {
  datatype Result<+T, +E> = Ok(value: T) | Err(error: E)
}
