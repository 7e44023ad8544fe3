/** Optional values. A TypeScript field declared with `.optional()` is either
    absent (`undefined`) or holds a value; `None` stands for the absent case. */
module Wrappers {

  datatype Option<+T> = None | Some(value: T) {

    /** The held value, or `default` when absent: the `(x || 0)` idiom of the
        source applied to a field that is a number whenever present. */
    function GetOr(default: T): (r: T)
      ensures Some? ==> r == value
      ensures None? ==> r == default
    {
      match this
      case Some(v) => v
      case None => default
    }
  }
}
