/** A value that may be absent: a Java reference that may be null, or an Intent extra that may be missing. */
module Wrappers {
  datatype Option<+T> = None | Some(value: T) {
    /** The value, or `default` when absent (as `getIntExtra(key, default)` does). */
    function GetOr(default: T): T {
      match this
      case Some(v) => v
      case None => default
    }
  }
}
