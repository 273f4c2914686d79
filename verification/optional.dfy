/** An optional value: stands for a JavaScript value that may be `undefined` or `null`. */
module Optional {

  datatype Option<+T> = None | Some(value: T) {

    /** The value if present, otherwise `default` (the `x === undefined ? d : x` idiom). */
    function GetOr(default: T): T
    {
      match this
      case Some(v) => v
      case None => default
    }
  }
}
