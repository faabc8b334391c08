/** Small helper datatypes shared by the quiz engine model. */
module Wrappers {

  /** A value that may be absent (an unchecked radio group, a missing storage key). */
  datatype Option<+T> = None | Some(value: T) {
    /** The wrapped value, or `default` when there is none. */
    function GetOr(default: T): T {
      match this
      case Some(v) => v
      case None => default
    }
  }

  function Min(a: int, b: int): int {
    if a <= b then a else b
  }
}
