/** Optional values: a Go pointer-or-nil, or a capability that a value may lack. */
module Wrappers {

  datatype Option<+T> = None | Some(value: T)
}
