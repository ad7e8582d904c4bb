/** Failure-carrying values shared by every module: an optional value, and the
    outcome of a call that either returns a value or throws an error whose
    message is kept (JavaScript `throw new Error(message)`). */
module Wrappers {

  datatype Option<+T> = None | Some(value: T) {
    function GetOr(default: T): T
    {
      match this
      case Some(v) => v
      case None => default
    }
  }

  /** `Err(message)` stands for a thrown `Error` whose `message` is `message`. */
  datatype Result<+T> = Ok(value: T) | Err(message: string)
}
