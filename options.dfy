/** Rust's `Option`, as used for the owning-triangle slots of an edge. */
module Options {
  datatype Option<+T> = None | Some(value: T)
}
