/** The optional-value wrapper used wherever the source returns `null`,
    `undefined` or a document that may not exist. */
module Wrappers {

  datatype Option<+T> = None | Some(value: T) {

    function GetOr(default: T): T {
      match this
      case Some(v) => v
      case None => default
    }
  }
}
