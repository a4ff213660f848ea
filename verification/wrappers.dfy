/** The optional value used by lookups and decoders (Rust's `Option`). */
module Wrappers {
  datatype Option<+T> = None | Some(value: T)
}
