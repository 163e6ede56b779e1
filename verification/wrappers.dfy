/** Optional values, as Rust's `Option` in the window manager's replies. */
module Wrappers {

  datatype Option<+T> = None | Some(value: T)
}
