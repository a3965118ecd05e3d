/** Rust's `Option` and `Result`, for every value that may be absent and every
    operation that may fail. */
module Results {

  datatype Option<+T> = None | Some(value: T)

  datatype Result<+T, +E> = Ok(value: T) | Err(error: E)
}
