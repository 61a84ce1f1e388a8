/** Optional values and callback outcomes. */
module Wrappers {

  /** A value that may be absent: JavaScript's `null`/`undefined`, or a missing hash field. */
  datatype Option<+T> = None | Some(value: T)

  /** The outcome of a Node-style callback: `callback(null, value)` or `callback(err)`. */
  datatype Result<+R, +E> = Success(value: R) | Failure(error: E)
}

/** The caller-owned JavaScript arrays that the plugin's hooks push into. */
module Lists {

  class PushList<T> {
    var items: seq<T>

    constructor ()
      ensures items == []
    {
      items := [];
    }

    /** `array.push(x)`: appends exactly one element and keeps the others in order. */
    method Push(x: T)
      modifies this
      ensures items == old(items) + [x]
    {
      items := items + [x];
    }
  }
}
