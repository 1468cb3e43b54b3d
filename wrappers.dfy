/** Option and Result values shared by the model's modules. */
module Wrappers {

  /** A nullable value: Kotlin's `T?`. */
  datatype Option<+T> = None | Some(value: T)

  /** A value or the exception that a call would throw. */
  datatype Result<+T, +E> = Ok(value: T) | Err(error: E)
}
