/** Success-or-error values for operations that the Java service and the contract signal by throwing. */
module Results {

  datatype Result<+T, +E> = Ok(value: T) | Err(error: E)

  datatype Option<+T> = None | Some(value: T)
}
