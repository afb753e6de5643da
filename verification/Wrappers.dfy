/** Optional values and the outcome of a call that can throw. */
module Wrappers {

  /** A value that may be absent (`undefined` in the source). */
  datatype Option<+T> = None | Some(value: T) {
    function GetOr(default: T): T {
      match this
      case Some(v) => v
      case None => default
    }
  }

  /** The outcome of an asynchronous call: it resolves with a value or rejects with an error message. */
  datatype Outcome<+T> = Ok(value: T) | Threw(message: string)
}
