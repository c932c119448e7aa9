/** Optional values: a Go reference or interface that may be nil, a JSON member that may be absent. */
module Wrappers {

  datatype Option<+T> = None | Some(value: T)
}
