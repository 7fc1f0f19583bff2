/** Failure-carrying wrappers used throughout the model: `Option` for the
    nullable fields of the entities and `Result` for operations that either
    return a value or raise one of the services' exceptions. */
module Results {

  datatype Option<+T> = None | Some(value: T)

  datatype Result<+T, +E> = Ok(value: T) | Err(error: E)
}
