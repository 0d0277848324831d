/** The nullable values of the C# source (`string?`, `int?`, `bool?`, a missing usage report). */
module Wrappers {

  datatype Option<+T> = None | Some(value: T) {

    /** The C# `??` operator: the value if present, otherwise the fallback. */
    function GetOr(default: T): (r: T)
      ensures Some? ==> r == value
      ensures None? ==> r == default
    {
      match this
      case Some(v) => v
      case None => default
    }
  }
}
