/** Optional values, used for the Go idiom of returning a nil or non-nil `error`. */
module Wrappers {

  datatype Option<+T> = None | Some(value: T)
}
