/** Optional references: the source's nullable fields become `Option` values. */
module Wrappers {

  datatype Option<+T> = None | Some(value: T)
}
