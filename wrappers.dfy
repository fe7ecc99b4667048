/** The optional value and the success-or-error value used throughout the
    model: JavaScript's `null`/`undefined` and thrown errors become these. */
module Wrappers {

  datatype Option<+T> = None | Some(value: T) {
    function GetOr(default: T): T {
      match this
      case Some(v) => v
      case None => default
    }
  }

  datatype Result<+T, +E> = Ok(value: T) | Err(error: E)
}
