/** An optional value: an element that may be missing from the page, an
    environment variable that may be unset, a field that may be null. */
module Optional {

  datatype Option<+T> = None | Some(value: T) {

    /** The value carried by Some, or the given default for None */
    function GetOr(default: T): T {
      match this
      case Some(v) => v
      case None => default
    }
  }
}
