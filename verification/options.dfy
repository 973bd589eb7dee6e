/** The optional value used wherever the application sees `null`/`undefined`
    (a missing session, a missing directory row, a `null` message body). */
module Options {

  datatype Option<+T> = None | Some(value: T) {

    /** The carried value, or `default` for `None` (JavaScript's `x ?? default`). */
    function GetOr(default: T): (r: T)
      ensures Some? ==> r == value
      ensures None? ==> r == default
    {
      match this
      case Some(v) => v
      case None => default
    }
  }
}
