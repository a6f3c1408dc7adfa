/** The optional-value datatype used throughout the model. */
module Wrappers {

  /** Some value, or nothing (PHP `null` where a missing array slot or row is meant). */
  datatype Option<+T> = None | Some(value: T) {

    /** Returns the value held in Some, or `default` when None. */
    function GetOr(default: T): T {
      match this
      case Some(v) => v
      case None => default
    }
  }
}
