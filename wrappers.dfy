/** Optional values, used for the absent cases of parsing and of the data handler. */
module Wrappers {
  datatype Option<+T> = None | Some(value: T)
}
