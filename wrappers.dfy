/** Small helper datatypes shared by the other modules. */
module Wrappers {

  /** A value that may be absent: a missing dictionary key, a SQL NULL. */
  datatype Option<T> = None | Some(value: T) {

    /** The carried value, or `default` when there is none (Python's `dict.get(k, default)`). */
    function GetOr(default: T): T {
      match this
      case Some(v) => v
      case None => default
    }
  }
}
