/** Optional values: Go's nil stands for None throughout the model. */
module Wrappers {
  datatype Option<+T> = None | Some(value: T)
}
