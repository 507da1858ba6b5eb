/** Option and Result datatypes shared by the startup-configuration modules. */
module Wrappers {

  /** A value that may be absent, such as a secret not yet persisted. */
  datatype Option<T> = None | Some(value: T)

  /** The Go idiom `(value, error)`: either a value or the error that stopped the operation. */
  datatype Result<T, E> = Ok(value: T) | Err(error: E)
}
