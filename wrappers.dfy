/** Failure-carrying values: `Option` stands for a reference that may be
    null, `Result` for an operation that either returns a value or throws. */
module Wrappers {

  datatype Option<+T> = None | Some(value: T)

  datatype Result<+T, +E> = Ok(value: T) | Err(error: E)
}
