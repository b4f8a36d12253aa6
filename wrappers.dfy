/** Optional values, shared by the formatter and the session. */
module Wrappers {

  datatype Option<+T> = None | Some(value: T)
}
