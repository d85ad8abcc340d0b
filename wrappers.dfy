/** Optional values and the outcome of a Python call that may raise. */
module Wrappers {

  datatype Option<T> = None | Some(value: T)

  /** What a Python call did: returned a value, or let an exception escape. */
  datatype Outcome<T> = Returned(value: T) | Raised
}
