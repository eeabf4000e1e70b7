/** Failure-carrying values shared by every module of the model. */
module Outcomes {

  /** A value that may be absent (a Go `nil`, a missing map entry). */
  datatype Option<+T> = None | Some(value: T)

  /** A Go `(value, error)` pair: either the value or the error's message. */
  datatype Result<+T> = Ok(value: T) | Err(msg: string)
}
