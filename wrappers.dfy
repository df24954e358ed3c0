/** Option and Result: the two failure-carrying shapes used by both scripts' models. */
module Wrappers {

  /** A value that may be absent (Python's `None`, or an unbound local). */
  datatype Option<+T> = None | Some(value: T)

  /** A computed value, or the error the script raises instead. */
  datatype Result<+T, +E> = Ok(value: T) | Err(error: E)
}
