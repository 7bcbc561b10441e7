/** The `Result` and `Option` shapes of the functions that can fail. */
module Results {
  datatype Result<T, E> = Ok(value: T) | Err(error: E)

  datatype Option<T> = None | Some(value: T)
}
