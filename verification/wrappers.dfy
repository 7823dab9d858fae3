/** The optional-value datatype used for the source's `null`, `undefined` and optional fields. */
module Wrappers {

  datatype Option<+T> = None | Some(value: T) {

    /** The carried value if there is one, and `default` otherwise. */
    function GetOr(default: T): (r: T)
      ensures Some? ==> r == value
      ensures None? ==> r == default
    {
      match this
      case Some(v) => v
      case None => default
    }
  }
}
