/** The optional value used for JavaScript's null / undefined. */
module Optional {

  datatype Option<+T> = None | Some(value: T) {

    /** The wrapped value, or the given default when there is none. */
    function GetOr(default: T): T {
      match this
      case Some(v) => v
      case None => default
    }
  }
}
