/** The optional-value datatype used for Python's `None` and for backend calls that may raise. */
module Wrappers {
  datatype Option<+T> = None | Some(value: T) {
    /** `d.get(key, default)`: the value if present, otherwise the default. */
    function GetOr(default: T): T {
      match this
      case Some(v) => v
      case None => default
    }
  }
}
