/** The optional-value wrapper used throughout the model. */
module Wrappers {

  /** Python's `None`-or-value results. */
  datatype Option<+T> = None | Some(value: T) {

    /** The value, or `default` when there is none (Python's `x or default` on an optional). */
    function GetOr(default: T): T {
      match this
      case Some(v) => v
      case None => default
    }
  }
}
