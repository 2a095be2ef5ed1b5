/** The Option and Result types the other modules share. */
module Wrappers {

  datatype Option<+T> = None | Some(value: T) {
    /** The wrapped value, or `default` when there is none. */
    function GetOr(default: T): T {
      match this
      case Some(v) => v
      case None => default
    }
  }

  /** The value an operation produced, or the error it failed with. */
  datatype Result<+T, +E> = Ok(value: T) | Err(error: E)
}
