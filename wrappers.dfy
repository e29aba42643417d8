/** Option and Result used by the request handlers. */
module Wrappers {

  datatype Option<+T> = None | Some(value: T) {

    /** The wrapped value, or `default` when there is none. */
    function GetOr(default: T): T {
      match this
      case Some(v) => v
      case None => default
    }
  }

  /** The outcome of one request: a value, or the error the handler reports. */
  datatype Result<+T, +E> = Ok(value: T) | Err(error: E)
}
