/** Optional values: a dictionary key that may be absent, a filename that may be missing. */
module Wrappers {
  datatype Option<+T> = None | Some(value: T)
}
