/** Optional values: JavaScript's `undefined` / `null` and a lookup that finds nothing. */
module Wrappers {

  datatype Option<+T> = None | Some(value: T)
}
