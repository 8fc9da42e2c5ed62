/** Option and Result, the failure-carrying values used across the model. */
module Wrappers {

  /** A value that may be missing, as a Python key lookup without a default. */
  datatype Option<+T> = None | Some(value: T) {

    /** `d.get(key, default)` once the lookup has been made. */
    function GetOr(default: T): T {
      match this
      case Some(v) => v
      case None => default
    }
  }

  /** Either a value or the exception raised while computing it. */
  datatype Result<+T, +E> = Ok(value: T) | Err(error: E)
}
