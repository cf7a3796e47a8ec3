/** Optional values: the model's stand-in for C# `null`. */
module Wrappers {

  /** `None` plays the part of a null reference, `Some(v)` of a non-null one. */
  datatype Option<+T> = None | Some(value: T)
}
