/** Optional values and error results shared by the RPC client and the transaction verifier. */
module Wrappers {

  /** A value that may be absent (PHP `null`, or a field that is not set). */
  datatype Option<+T> = None | Some(value: T) {
    function GetOr(default: T): T {
      match this
      case Some(v) => v
      case None => default
    }
  }

  /** The outcome of an operation that either returns a value or throws. */
  datatype Result<+T, +E> = Ok(value: T) | Err(error: E)
}
