/** Small shared datatypes. */
module Common {

  /** A value that may be absent: JavaScript's `null`/`undefined` at a typed boundary. */
  datatype Option<T> = None | Some(value: T)

  /** The outcome of a check that either produces a value or a machine-readable error. */
  datatype Result<T, E> = Ok(value: T) | Err(error: E)
}
