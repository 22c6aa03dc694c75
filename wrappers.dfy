/** The optional value used wherever the front-end has `T | null`, `T | undefined` or
    a `find` that may come back empty. */
module Wrappers {

  datatype Option<+T> = None | Some(value: T) {

    /** `x ?? d`, `x || d` on a present-or-absent value. */
    function GetOr(default: T): T
    {
      match this
      case Some(v) => v
      case None => default
    }
  }
}
