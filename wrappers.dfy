/** Optional values: a C pointer that may be NULL, a lookup that may miss. */
module Wrappers {

  datatype Option<+T> = None | Some(value: T)
}
