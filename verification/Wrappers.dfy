/** Optional values, standing for Swift's `nil`-able results. */
module Wrappers {

  datatype Option<+T> = None | Some(value: T)
}
