/** Optional values, used for the storage slot and for fields a record may lack. */
module Wrappers {

  datatype Option<+T> = None | Some(value: T)
}
