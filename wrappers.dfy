/** Optional values, as Python's `None`-or-value. */
module Wrappers {

  datatype Option<+T> = None | Some(value: T) {

    /** The wrapped value, or `default` when there is none. */
    function GetOr(default: T): T {
      match this
      case Some(v) => v
      case None => default
    }
  }

  /**
   * The result of a Python call that either returns a value or lets an
   * exception propagate to its caller.
   */
  datatype Outcome<+T> = Returned(value: T) | Raised
}
