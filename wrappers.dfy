/** Optional values, used for "this call happens / does not happen". */
module Wrappers {

  datatype Option<+T> = None | Some(value: T)
}
