/** Optional values: an absent bound or an absent capacity limit. */
module Wrappers {
  datatype Option<+T> = None | Some(value: T)
}
