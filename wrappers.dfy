/** Optional values: JavaScript's null/undefined and Python's None. */
module Wrappers {
  datatype Option<T> = None | Some(value: T)
  {
    predicate IsSome() { this.Some? }

    function GetOr(default: T): T
    {
      match this
      case Some(v) => v
      case None => default
    }
  }
}
