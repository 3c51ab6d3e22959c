/** Option, the stock nullable-value wrapper used throughout the model. */
module Wrappers {

  /** A value that may be absent: JavaScript's `null`/`undefined`, Java's `null` or `Optional.empty()`. */
  datatype Option<+T> = None | Some(value: T) {

    /** The wrapped value, or `default` when absent. */
    function GetOr(default: T): T {
      match this
      case Some(v) => v
      case None => default
    }
  }
}
