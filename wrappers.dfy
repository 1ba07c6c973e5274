/** Optional values: the model's counterpart of a nullable field. */
module Wrappers {
  datatype Option<+T> = None | Some(value: T)
}
