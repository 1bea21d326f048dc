/** Optional values and outcomes that either carry a value or an error message. */
module Wrappers {

  /** A value that may be absent (`undefined`/`null` in TypeScript, `None` in Python). */
  datatype Option<T> = None | Some(value: T) {
    function GetOr(default: T): T {
      match this
      case Some(v) => v
      case None => default
    }
  }

  /** The outcome of an operation that can throw: the value, or the thrown error's message. */
  datatype Result<T> = Ok(value: T) | Err(message: string)
}
