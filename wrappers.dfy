/** Option and Result, the two shapes every "maybe absent" or "may fail" value takes here. */
module Wrappers {

  /** A value that may be absent: TypeScript's `T | undefined`. */
  datatype Option<+T> = None | Some(value: T) {
    function GetOr(default: T): T {
      match this
      case Some(v) => v
      case None => default
    }
  }

  /** The outcome of a call that either returns a value or throws / rejects. */
  datatype Result<+T, +E> = Ok(value: T) | Err(error: E)
}
