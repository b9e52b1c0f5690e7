/** The optional value used wherever the application may have nothing: a session
    key not yet stored, or an API call that failed and returned `None`. */
module Wrappers {

  datatype Option<+T> = None | Some(value: T) {

    /** The stored value, or `default` when there is none. */
    function GetOr(default: T): T
    {
      match this
      case Some(v) => v
      case None => default
    }
  }
}
