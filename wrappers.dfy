/** Optional values: a JavaScript binding that may still be `undefined`. */
module Wrappers {
  datatype Option<+T> = None | Some(value: T)
}
