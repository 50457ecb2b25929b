/** Failure-carrying values shared by the history sources and the simulator. */
module Wrappers {

  /** A value that may be absent; `None` stands for an exhausted iterator. */
  datatype Option<+T> = None | Some(value: T)

  /** The outcome of an operation that either yields a value or raises an error. */
  datatype Result<+T, +E> = Ok(value: T) | Err(error: E)
}
