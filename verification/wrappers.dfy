/** Optional values, standing in for PHP's `null` where the source tells it apart from a value. */
module Wrappers {

  datatype Option<T> = None | Some(value: T)
  {
    /** The value, or `default` for `None`. */
    function GetOr(default: T): T
    {
      match this
      case None => default
      case Some(v) => v
    }
  }
}
