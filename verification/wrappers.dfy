/** The optional value used wherever the source has `None`, `null` or a missing JSON field. */
module Wrappers {

  datatype Option<+T> = None | Some(value: T) {

    /** The value when present, the default otherwise (JavaScript's `x || d` on a present field). */
    function GetOr(default: T): T {
      match this
      case Some(v) => v
      case None => default
    }
  }
}
