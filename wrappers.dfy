/** Optional values, standing for Python attributes that may be missing and for `None`. */
module Wrappers {

  datatype Option<+T> = None | Some(value: T) {

    /** The value if present, else `default` (Python's `getattr(obj, name, default)`). */
    function GetOr(default: T): T {
      match this
      case Some(v) => v
      case None => default
    }
  }
}
