/** Optional values, standing for Rust's `Option` and for a `Result` whose error is discarded. */
module Wrappers {

  datatype Option<+T> = None | Some(value: T)
}
