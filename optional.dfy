/** Kotlin's nullable values (`T?`) as an Option. */
module Optional {

  datatype Option<+T> = None | Some(value: T) {

    /** Kotlin's `?:` (elvis): the value, or `default` when null. */
    function GetOr(default: T): T {
      match this
      case Some(v) => v
      case None => default
    }
  }
}
