/** The optional value used for JavaScript's `null`/`undefined` in the places
    where the source treats both alike (`??`, a result that may be absent). */
module Wrappers {

  datatype Option<+T> = None | Some(value: T) {

    /** The value, or `default` when absent: the `??` operator. */
    function OrElse(default: T): (r: T)
    {
      match this
      case Some(v) => v
      case None => default
    }
  }
}
