/** Optional values: the model's stand-in for a key that may be absent
    (or `undefined`) in a JavaScript object, and for `NaN` from parsing. */
module Wrappers {

  datatype Option<+T> = None | Some(value: T)
}
