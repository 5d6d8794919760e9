/** Optional values, for the simulator's missing values and failure paths. */
module Wrappers {

  datatype Option<+T> = None | Some(value: T)
}
