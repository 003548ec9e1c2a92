/** Failure-carrying wrappers shared by every module of the portal model. */
module Common {

  /** A value that may be absent: the source's `null` / `undefined`. */
  datatype Option<+T> = None | Some(value: T) {
    function GetOr(default: T): T {
      match this
      case Some(v) => v
      case None => default
    }
  }

  /** The outcome of a call that can throw: the thrown `Error`'s message is kept. */
  datatype Result<+T> = Ok(value: T) | Fail(message: string)

  /** JavaScript truthiness of an optional string: `null`, `undefined` and `''` are falsy. */
  predicate Truthy(s: Option<string>) {
    s.Some? && s.value != ""
  }
}
