/** The optional value used wherever the source has `Optional[...]` or returns `None`. */
module Wrappers {

  datatype Option<+T> = None | Some(value: T) {

    /** `x or default` for an optional string or list. */
    function GetOr(default: T): T {
      match this
      case Some(v) => v
      case None => default
    }
  }
}
