/** Optional values, used for Rust's `Option` (a lookup constructor that may be
    absent, the index found by a first-match search). */
module Wrappers {
  datatype Option<+T> = None | Some(value: T)
}
