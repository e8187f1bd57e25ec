/** Optional values: JavaScript's `undefined`/`null` for a field that may be absent. */
module Wrappers {

  datatype Option<+T> = None | Some(value: T) {

    /** The value, or `default` when absent (JavaScript's `x ?? default`). */
    function GetOr(default: T): T {
      match this
      case Some(v) => v
      case None => default
    }
  }

  /** The outcome of an asynchronous call: a value, or an error carrying a message. */
  datatype Outcome<+T> = Ok(value: T) | Err(message: string)
}
