/** Optional values: a JavaScript `undefined` / absent property. */
module Wrappers {
  datatype Option<+T> = None | Some(value: T)
}
