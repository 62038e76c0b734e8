/** The optional value that most other modules use. */
module Wrappers {

  datatype Option<+T> = None | Some(value: T) {

    /** The value inside, or `default` when there is none. */
    function GetOr(default: T): T {
      match this
      case Some(v) => v
      case None => default
    }
  }
}
