module Results {

  /** The outcome of an operation that the source either completes or aborts with an exception. */
  datatype Result<T, E> = Ok(value: T) | Err(error: E)

  datatype Option<T> = None | Some(value: T)

}
