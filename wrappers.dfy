/** Optional values, used for Python's `None` and for "raised or not". */
module Wrappers {

  datatype Option<+T> = None | Some(value: T)
}
