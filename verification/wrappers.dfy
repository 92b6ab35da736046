/** The optional value used for every nullable field of the client state. */
module Wrappers {

  /** `null` / `undefined` on the client side is `None`. */
  datatype Option<+T> = None | Some(value: T) {

    /** The value, or `default` when absent: a JavaScript default parameter. */
    function GetOr(default: T): T {
      match this
      case Some(v) => v
      case None => default
    }
  }
}
