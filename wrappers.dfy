/** Optional values: the model's stand-in for JavaScript's `undefined`
    (a missing array element) and for a non-finite result. */
module Wrappers {

  datatype Option<+T> = None | Some(value: T)
}
