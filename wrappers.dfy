/** Small value wrappers shared by the tools' models. */
module Wrappers {

  /** A value that may be absent: a missing JSON field, an RPC answer of the wrong shape. */
  datatype Option<+T> = None | Some(value: T)

  /** An operation that either yields a value or fails with an error of type E. */
  datatype Result<+T, +E> = Ok(value: T) | Err(error: E)
}
