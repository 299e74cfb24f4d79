/** Optional values, for the constructor arguments that default to None. */
module Wrappers {

  datatype Option<+T> = None | Some(value: T)
}
