/** Optional values, for references the source may leave null. */
module Wrappers {
  datatype Option<+T> = None | Some(value: T)
}
