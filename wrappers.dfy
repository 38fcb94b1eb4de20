/** Option, Result and Outcome datatypes shared by the other modules. */
module Wrappers {

  /** An optional value: JavaScript's `null`/`undefined` versus a present value. */
  datatype Option<+T> = None | Some(value: T)

  /** A computed value, or the error a promise rejects with. */
  datatype Result<+T, +E> = Ok(value: T) | Err(error: E)

  /** A promise that resolves to nothing, or rejects with an error. */
  datatype Outcome<+E> = Pass | Fail(error: E)
}
