/** Option and Result values standing for the source's optional fields,
    JavaScript `null`/`undefined`, and Rust `Option`/`Result`. */
module Wrappers {

  datatype Option<+T> = None | Some(value: T) {
    function GetOr(default: T): T {
      match this
      case Some(v) => v
      case None => default
    }
  }

  datatype Result<+T, +E> = Ok(value: T) | Err(error: E)
}
