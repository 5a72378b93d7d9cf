/** Optional values, standing for Python's `None` where a lookup can miss. */
module Wrappers {
  datatype Option<+T> = None | Some(value: T)
}
