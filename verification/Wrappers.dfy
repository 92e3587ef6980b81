/** Optional values, used wherever the source has `T | undefined`. */
module Wrappers {
  datatype Option<+T> = None | Some(value: T)
}
