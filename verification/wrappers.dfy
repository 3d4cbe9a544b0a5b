/** The optional value returned by a map lookup (Rust's `Option`). */
module Wrappers {
  datatype Option<+T> = None | Some(value: T)
}
