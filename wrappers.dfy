/** Optional values: a field that may be absent (`field?: T` in the source). */
module Wrappers {

  datatype Option<+T> = None | Some(value: T) {

    /** The value if present, otherwise `default`. */
    function GetOr(default: T): T {
      match this
      case Some(v) => v
      case None => default
    }

    /** Right-biased choice: `update` if it is present, otherwise this value
        (the rule of an object spread `{ ...this, ...update }` for one key). */
    function Or(update: Option<T>): (r: Option<T>)
      ensures update.Some? ==> r == update
      ensures update.None? ==> r == this
    {
      if update.Some? then update else this
    }
  }
}
