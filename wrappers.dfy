/** Optional values, for results the source leaves undefined or non-numeric. */
module Wrappers {

  datatype Option<+T> = None | Some(value: T)
}
