/** Optional values and the outcome of JavaScript code that may throw. */
module Wrappers {

  /** A JavaScript value that may be `undefined`. */
  datatype Option<+T> = None | Some(value: T)

  /** The outcome of an expression that may throw: its value, or the message of the error thrown. */
  datatype Result<+T> = Ok(value: T) | Throws(error: string)
}
