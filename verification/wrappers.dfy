/** Optional values, shared by the modules of this model. */
module Wrappers {

  /** Rust's `Option<T>`: either nothing or one value. */
  datatype Option<+T> = None | Some(value: T)
}
