/** The two wrappers the modules share: an optional value (a nullable column, a lookup
    that may miss) and the outcome of a transaction that may roll back. */
module Wrappers {

  datatype Option<+T> = None | Some(value: T)

  datatype Result<+T, +E> = Ok(value: T) | Err(error: E)
}
