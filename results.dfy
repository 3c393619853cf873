/** The outcome of an operation that either produces a value or stops with an error. */
module Results {

  datatype Result<+T, +E> = Ok(value: T) | Err(error: E)

}
