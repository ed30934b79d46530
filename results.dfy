/** Failure-carrying values: the Go code reports failures by an `error`
    result or by panicking; both become an `Err` here. */
module Results {

  datatype Option<+T> = None | Some(value: T)

  datatype Result<+T, +E> = Ok(value: T) | Err(error: E)
}
