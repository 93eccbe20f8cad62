/** An optional value: `None` stands for JavaScript's `null` / `undefined`. */
module Optional {

  datatype Option<+T> = None | Some(value: T) {

    /** The value when there is one, `default` otherwise. */
    function GetOr(default: T): T
    {
      match this
      case Some(v) => v
      case None => default
    }
  }
}
