/** Optional values and failure results shared by every module of the model. */
module Wrappers {

  /** A value that may be absent: Python's `Optional[T]` / `None`. */
  datatype Option<+T> = None | Some(value: T) {

    /** The wrapped value, or `default` when absent: Python's `d.get(key, default)` on a dictionary entry. */
    function GetOr(default: T): T {
      match this
      case Some(v) => v
      case None => default
    }
  }

  /** Either a computed value or the error that stopped the computation. */
  datatype Result<+T, +E> = Ok(value: T) | Err(error: E)
}
