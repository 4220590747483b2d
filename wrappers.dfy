/** Optional values and fallible results shared by every module of the model. */
module Wrappers {
  /** A value that may be absent (JavaScript `null` / `undefined`). */
  datatype Option<T> = None | Some(value: T)

  /** The outcome of an operation that may throw: a value, or the message of the error it raised. */
  datatype Result<T> = Ok(value: T) | Err(error: string)

  /** The outcome of an operation that returns nothing and may throw. */
  datatype Outcome = Done | Failed(error: string)
}
