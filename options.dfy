/** The optional value used wherever the source has `T | undefined` or an optional field. */
module Options {

  datatype Option<+T> = None | Some(value: T) {

    /** The value, or `default` when absent (the source's `x || default` on an optional string). */
    function GetOr(default: T): (r: T)
      ensures Some? ==> r == value
      ensures None? ==> r == default
    {
      match this
      case Some(v) => v
      case None => default
    }
  }
}
