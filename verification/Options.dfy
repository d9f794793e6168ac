// Shared result types: a missing value, and the outcome of an operation that can be refused.
module Options {
  datatype Option<+T> = None | Some(value: T)

  datatype Result<+T, +E> = Ok(value: T) | Err(error: E)
}
