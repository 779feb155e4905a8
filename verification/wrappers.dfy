/** Option and Result values used for the system's "maybe missing" fields and
    for the error answers (HTTP statuses, raised ValueErrors) of its handlers. */
module Wrappers {

  datatype Option<+T> = None | Some(value: T) {
    function GetOr(default: T): T {
      match this
      case Some(v) => v
      case None => default
    }
  }

  datatype Result<+T, +E> = Ok(value: T) | Err(error: E)
}
