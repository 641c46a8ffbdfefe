/** Optional values: a node of the store that may be absent, a value that may be undefined. */
module Wrappers {

  datatype Option<+T> = None | Some(value: T)
}
