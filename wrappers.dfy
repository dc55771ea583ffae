/** Kotlin's nullable values (`T?`). */
module Wrappers {

  datatype Option<+T> = None | Some(value: T) {

    /** The `?:` operator: the value if present, else `default`. */
    function GetOr(default: T): T {
      match this
      case Some(v) => v
      case None => default
    }
  }
}
