/** Optional values: `None` stands for the `float("inf")` of an unreached vertex. */
module Wrappers {
  datatype Option<+T> = None | Some(value: T)
}
