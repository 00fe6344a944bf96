/** Optional values, for the fields and results the source may leave unset. */
module Wrappers {

  datatype Option<T> = None | Some(value: T)
}
