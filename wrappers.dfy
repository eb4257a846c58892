/** Optional values, used for a request that may or may not be issued. */
module Wrappers {

  datatype Option<+T> = None | Some(value: T)
}
