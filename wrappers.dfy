/** The optional value of the JavaScript code: `undefined`/`null` versus a value. */
module Wrappers {

  datatype Option<+T> = None | Some(value: T) {

    /** `x ?? d` in the source. */
    function GetOr(default: T): T {
      match this
      case Some(v) => v
      case None => default
    }
  }
}
