/** Optional values: a Go interface value that may be nil, or a slice that may be nil. */
module Wrappers {
  datatype Option<+T> = None | Some(value: T)
}
