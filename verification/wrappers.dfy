/** Failure-carrying datatypes shared by every module of the model. */
module Wrappers {

  /** An optional value: Go's `(v, ok)` pairs and nil-able results. */
  datatype Option<+T> = None | Some(value: T)

  /** A value or the error that prevented it: Go's `(v, err)` pairs. */
  datatype Result<+T, +E> = Ok(value: T) | Err(error: E)

  /** An error value as it travels to the runtime's error channel. The model
      never inspects an error: it only records where it came from. */
  datatype Error = Error(origin: string)
}
