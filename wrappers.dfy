/** Optional values, for Python's `None` and for lookups that may fail. */
module Wrappers {

  datatype Option<+T> = None | Some(value: T)
}
