/** Optional values, for the results of lookups that may find nothing. */
module Wrappers {

  datatype Option<+T> = None | Some(value: T)
}
