/** Option and Result, the shapes in which the remote store and the URL parser answer. */
module Wrappers {

  datatype Option<+T> = None | Some(value: T)

  /** The answer of one request to the remote store: the rows it returned, or its error. */
  datatype Result<+T, +E> = Ok(value: T) | Err(error: E)
}
