/** Option and Result types shared by the other modules. */
module Wrappers {

  /** An optional value; for JavaScript values `None` stands for `undefined`. */
  datatype Option<+T> = None | Some(value: T)

  /** The outcome of a computation that may throw `error` instead of returning `value`. */
  datatype Result<+T, +E> = Ok(value: T) | Err(error: E)
}
