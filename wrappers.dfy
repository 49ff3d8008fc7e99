/** Option and Result values used for the Go code's nil results and error returns. */
module Wrappers {

  datatype Option<+T> = None | Some(value: T) {
    function GetOr(default: T): T {
      match this
      case Some(v) => v
      case None => default
    }
  }

  /** A Go `(value, error)` pair in which at most one half is meaningful. */
  datatype Result<+T> = Ok(value: T) | Err(msg: string)
}
