/** `Option` for `T | null` and absent keys, `Result` for a value or an error. */
module Wrappers {

  datatype Option<+T> = None | Some(value: T) {

    /** The value, or `default` when there is none (`x ?? default`). */
    function GetOr(default: T): T {
      match this
      case Some(v) => v
      case None => default
    }
  }

  /** A value, or the error the source reports instead. */
  datatype Result<+T, +E> = Ok(value: T) | Err(error: E)
}
