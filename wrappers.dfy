/** Optional values, used for JavaScript's `undefined` and for absent errors. */
module Wrappers {
  datatype Option<+T> = None | Some(value: T)
}
