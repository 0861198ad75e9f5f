/** Optional values and results with an error, shared by the other modules. */
module Wrappers {

  /** A value that may be absent: Java's `null` / `Optional.empty()`, TypeScript's `undefined`. */
  datatype Option<+T> = None | Some(value: T)

  /** The outcome of an operation that may throw: `Err` carries the exception's description. */
  datatype Result<+T> = Ok(value: T) | Err(error: string)
}
