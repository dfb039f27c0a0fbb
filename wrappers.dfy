/** Failure-carrying values shared by the modules of this model. */
module Wrappers {

  /** A value that may be absent (Python's `None`). */
  datatype Option<T> = None | Some(value: T)

  /** The outcome of an operation that raises in the source: a value, or the error it raises. */
  datatype Result<T, E> = Ok(value: T) | Err(error: E)
}
