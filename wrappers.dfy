/** Option and Result, the two failure-carrying shapes used throughout the model:
    `Option` for JavaScript's "value or undefined/null", `Result` for "value or
    thrown error message". */
module Wrappers {

  datatype Option<+T> = None | Some(value: T) {
    function GetOr(default: T): T {
      match this
      case Some(v) => v
      case None => default
    }
  }

  datatype Result<+T> = Ok(value: T) | Err(message: string)
}
