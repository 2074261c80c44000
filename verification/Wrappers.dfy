/** Failure and absence, shared by every component. */
module Wrappers {

  datatype Option<+T> = None | Some(value: T)

  /** A Go `(value, error)` pair: the text of the error is not modelled. */
  datatype Result<+T> = Ok(value: T) | Err
}
