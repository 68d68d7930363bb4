/** Failure-carrying values shared by the other modules. */
module Wrappers {

  /** A possibly absent value (a nil pointer in the modelled code). */
  datatype Option<+T> = None | Some(value: T)

  /** A value or an error (the modelled code's `(T, error)` returns). */
  datatype Result<+T, +E> = Ok(value: T) | Err(error: E)
}
