/** Optional values and results, as the stores and views use `null`, `undefined` and exceptions. */
module Wrappers {

  /** A value that may be absent (`null` / `undefined` / Python `None`). */
  datatype Option<+T> = None | Some(value: T) {
    function GetOr(default: T): T {
      match this
      case Some(v) => v
      case None => default
    }
  }

  /** The outcome of an operation that returns a value or raises an error. */
  datatype Result<+T, +E> = Ok(value: T) | Err(error: E)
}
