/** Optional values, standing in for JavaScript's `undefined` and for an empty
    SQL result. */
module Wrappers {

  datatype Option<+T> = None | Some(value: T)
}
