/** The usual Some/None wrapper, for values JavaScript leaves `undefined`. */
module Optional {

  datatype Option<+T> = None | Some(value: T) {

    /** `x || d` and `x ?? d` for an optional value. */
    function GetOr(default: T): T {
      match this
      case Some(v) => v
      case None => default
    }
  }
}
