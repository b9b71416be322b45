/** Optional values: a key that may be missing from a Python dict, or a value that may be None. */
module Wrappers {

  datatype Option<+T> = None | Some(value: T) {

    /** The Python idiom `d.get(key, default)`. */
    function GetOr(default: T): T
    {
      match this
      case Some(v) => v
      case None => default
    }
  }
}
