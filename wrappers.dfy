/** The optional-value wrapper used for every dictionary key the proxy reads with a default. */
module Wrappers {

  /** `None` stands for a key that is absent (or, where README says so, null). */
  datatype Option<+T> = None | Some(value: T) {

    /** The value, or `default` when there is none: Python's `d.get(k, default)`. */
    function GetOr(default: T): T {
      match this
      case Some(v) => v
      case None => default
    }
  }
}
