/** Failure-compatible wrappers shared by the whole model. */
module Wrappers {

  /** An optional value: TypeScript's `T | undefined` / `T | null`. */
  datatype Option<+T> = None | Some(value: T) {
    function GetOr(default: T): T {
      match this
      case Some(v) => v
      case None => default
    }
  }

  /** The outcome of an operation that may throw: a value or an error message. */
  datatype Result<+R> = Ok(value: R) | Err(error: string)
}
