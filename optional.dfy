/** An optional value: a dictionary key that may be absent, a field that may be null. */
module Optional {

  datatype Option<+T> = None | Some(value: T) {

    /** The value when present, otherwise the given default (Python's dict.get(key, default)). */
    function GetOr(default: T): (r: T)
      ensures Some? ==> r == value
      ensures None? ==> r == default
    {
      match this
      case Some(v) => v
      case None => default
    }
  }
}
