/** Optional values, standing in for JavaScript's null / undefined / falsy results. */
module Wrappers {

  datatype Option<+T> = None | Some(value: T)
}
