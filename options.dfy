/** The optional value used throughout the model for Python's `None`, a
    missing dictionary key, and JavaScript's `undefined`. */
module Options {

  datatype Option<T> = None | Some(value: T) {

    /** Python `x if x is not None else d`, JavaScript `x ?? d`. */
    function GetOr(d: T): T {
      match this
      case Some(v) => v
      case None => d
    }
  }
}
