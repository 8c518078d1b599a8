/** Optional values: JavaScript's `null`/`undefined` for tile owners, dice and selections. */
module Wrappers {
  datatype Option<T> = None | Some(value: T)
}
