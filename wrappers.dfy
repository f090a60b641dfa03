/** Optional values, as the source's "no value" cases need them. */
module Wrappers {

  datatype Option<+T> = None | Some(value: T)
}
