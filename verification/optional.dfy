/** A value that may be absent: JavaScript's `undefined` for an object key
    that is not set, and `null` for a storage slot that holds nothing. */
module Optional {

  datatype Option<+T> = None | Some(value: T) {

    /** The value, or `default` when there is none (`x ?? default`). */
    function GetOr(default: T): T {
      match this
      case Some(v) => v
      case None => default
    }
  }
}
