/** Optional values: a JavaScript `null`, `undefined` or absent field. */
module Wrappers {
  datatype Option<+T> = None | Some(value: T)
}
