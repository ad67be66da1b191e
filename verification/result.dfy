/** Failure-carrying datatypes shared by the order model, named after their Rust
    counterparts: `Option` for a value that may be absent and `Result` for an
    operation that either succeeds with a value or fails with a domain error. */
module Results {

  datatype Option<+T> = None | Some(value: T)

  datatype Result<+T, +E> = Ok(value: T) | Err(error: E)
}
