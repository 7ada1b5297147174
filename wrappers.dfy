/** The two wrappers the model uses: `Option` for Python's `None`, and
    `Result` for a handler that either returns a value or raises. */
module Wrappers {

  datatype Option<+T> = None | Some(value: T)

  datatype Result<+T, +E> = Ok(value: T) | Err(error: E)
}
