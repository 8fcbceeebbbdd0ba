/** Failure-carrying wrappers used throughout the model: `Option` stands for a
    Go value that may be nil, `Result` for a Go `(value, error)` pair. */
module Results {

  datatype Option<+T> = None | Some(value: T)

  datatype Result<+T, +E> = Ok(value: T) | Err(error: E)
}
