/** Optional values, for outcomes that may or may not have happened. */
module Wrappers {

  datatype Option<+T> = None | Some(value: T)
}
