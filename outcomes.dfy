/** Python's `None` and the exceptions the modelled code can raise, as values. */
module Outcomes {

  /** An optional argument: `None` or a value. */
  datatype Option<T> = None | Some(value: T)

  /** The exceptions that end a computation of the modelled code. */
  datatype Error =
    | IndexError  // a list, tuple or array index out of range, or too many indices for an array
    | NameError   // a local variable read although no branch assigned it

  /** A value, or the exception raised while computing it. */
  datatype Result<T> = Ok(value: T) | Err(error: Error)
}
