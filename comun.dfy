/** Outcome types shared by the services: a JavaScript `throw new Error(msg)` becomes
    an `Err`/`Fail` carrying the message, a normal return an `Ok`/`Pass`. */
module Comun {

  datatype Option<+T> = None | Some(value: T) {
    /** `x || d`: the value when present, the default otherwise. */
    function GetOr(default: T): T {
      match this
      case Some(v) => v
      case None => default
    }
  }

  datatype Result<+T> = Ok(value: T) | Err(message: string)

  /** A check that either passes (`return true`) or throws with a message. */
  datatype Outcome = Pass | Fail(message: string)
}
