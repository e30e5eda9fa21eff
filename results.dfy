/** Rust's `Option` and `Result`, as the rest of the model uses them. */
module Results {

  datatype Option<T> = None | Some(value: T)

  /** `Ok(value)` or `Err(error)`: how every fallible operation of the
      library reports its outcome. */
  datatype Result<T, E> = Ok(value: T) | Err(error: E)
}
