/** Optional values: a lookup that finds nothing, a parse that yields NaN,
    an argument the caller left out. */
module Wrappers {
  datatype Option<T> = None | Some(value: T)
}
