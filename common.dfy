/** Small wrappers shared by every module: an optional value and a success-or-error value. */
module Common {

  /** A value that may be absent: Go's nil pointer, SQL NULL or a missing map key. */
  datatype Option<T> = None | Some(value: T)

  /** The result of an operation that returns either a value or an error. */
  datatype Result<T, E> = Ok(value: T) | Err(error: E)
}
