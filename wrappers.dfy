/** Rust's `Option`, the result of every typed lookup. */
module Wrappers {
  datatype Option<+T> = None | Some(value: T)
}
