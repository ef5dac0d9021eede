/** The optional-value type shared by every module of the model. */
module Wrappers {

  /** A value that may be absent (JavaScript's undefined/null). */
  datatype Option<+T> = None | Some(value: T) {

    /** The value, or the given default when absent. */
    function GetOr(default: T): T {
      match this
      case Some(v) => v
      case None => default
    }
  }
}
