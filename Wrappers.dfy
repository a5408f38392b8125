/** Optional values: a reply the daemon did not give, a snapshot not taken yet. */
module Wrappers {
  datatype Option<+T> = None | Some(value: T)
}
