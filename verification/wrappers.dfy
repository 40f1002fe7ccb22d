/** The optional value used for session entries and request parameters that may be absent (Ruby's nil). */
module Wrappers {

  datatype Option<+T> = None | Some(value: T) {

    /** The wrapped value, or `default` when absent (Ruby's `x || default` on a string-or-nil). */
    function GetOr(default: T): T {
      match this
      case Some(v) => v
      case None() => default
    }
  }
}
