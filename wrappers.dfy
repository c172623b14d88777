/** Option and Result, the shapes every service call and lookup returns. */
module Wrappers {

  /** A value that may be absent: a nullable reference or an omitted field. */
  datatype Option<+T> = None | Some(value: T)

  /** The outcome of a service call: a value, or the error the call fails with. */
  datatype Result<+T, +E> = Ok(value: T) | Err(error: E)
}
