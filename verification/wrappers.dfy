/** Failure-carrying values used where the TypeScript code returns `null` or throws. */
module Wrappers {

  /** A value that may be absent (`undefined` / `null` in the source). */
  datatype Option<+T> = None | Some(value: T) {
    function GetOr(default: T): T {
      match this
      case Some(v) => v
      case None => default
    }
  }

  /** Either a value or the error a call would have thrown. */
  datatype Result<+T, +E> = Ok(value: T) | Err(error: E)

  /** The settlement of a call whose success carries no value (a `Promise<void>`). */
  datatype Outcome<+E> = Done | Failed(failure: E)
}
