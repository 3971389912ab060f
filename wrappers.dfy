/** The optional value used for "maybe absent" inputs: a stored list that is
    missing or unreadable, and an amount text that does not parse. */
module Wrappers {
  datatype Option<+T> = None | Some(value: T) {
    /** The value, or `default` when there is none. */
    function GetOr(default: T): (r: T)
      ensures Some? ==> r == value
      ensures None? ==> r == default
    {
      match this
      case Some(v) => v
      case None => default
    }
  }
}
