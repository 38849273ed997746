/** The two failure-aware shapes the pipeline needs: an optional field of a
    provider record (a dictionary key that may be missing), and the outcome of
    a step that may raise. */
module Wrappers {

  datatype Option<+T> = None | Some(value: T) {

    /** The value, or `default` when absent: Python's `d.get(key, default)`. */
    function GetOr(default: T): T {
      match this
      case Some(v) => v
      case None => default
    }
  }

  /** A step that either returns a value or raises `error`. */
  datatype Result<+T, +E> = Ok(value: T) | Err(error: E)
}
