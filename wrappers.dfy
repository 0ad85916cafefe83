/** Optional values, standing for the `undefined` results of the source's lookups. */
module Wrappers {
  datatype Option<+T> = None | Some(value: T)
}
