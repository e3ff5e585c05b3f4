/** Optional values: stands for the source's `number | null` props. */
module Wrappers {

  datatype Option<+T> = None | Some(value: T)
}
