/** Option and Result, standing for JavaScript's `null`/`undefined` and for
    a thrown (or rejected) error. */
module Wrappers {

  datatype Option<+T> = None | Some(value: T) {
    function GetOr(default: T): T {
      match this
      case Some(v) => v
      case None => default
    }
  }

  /** The outcome of a request or of a computation that may throw. */
  datatype Result<+T> = Ok(value: T) | Err(reason: string)
}
