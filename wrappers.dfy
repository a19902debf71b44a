/** Optional values: a missing row, an absent session key. */
module Wrappers {

  datatype Option<+T> = None | Some(value: T)

}
