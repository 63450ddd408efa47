/** An optional value, standing for the source's `undefined`. */
module Options {

  datatype Option<+T> = None | Some(value: T) {

    /** The value when present, the fallback otherwise (the source's `a || b`). */
    function GetOr(fallback: T): (r: T)
      ensures Some? ==> r == value
      ensures None? ==> r == fallback
    {
      match this
      case Some(v) => v
      case None => fallback
    }
  }
}
