/** Python's `None`: a value that may be missing. */
module Optional {

  datatype Option<T> = None | Some(value: T)
  {
    /** `d.get(key, default)`: the value, or `default` when it is missing. */
    function GetOr(default: T): T
    {
      match this
      case Some(v) => v
      case None => default
    }
  }
}
