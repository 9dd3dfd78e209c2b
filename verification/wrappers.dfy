/** Optional values and results with an error, as returned by the lookups
    and parsers of the audit tools (Python `None` and raised exceptions). */
module Wrappers {
  datatype Option<T> = None | Some(value: T) {
    function GetOr(default: T): T {
      match this
      case None => default
      case Some(v) => v
    }
  }

  datatype Result<T, E> = Ok(value: T) | Err(error: E)
}
