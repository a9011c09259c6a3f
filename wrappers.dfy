/** An optional value, for lookups and operations that may have nothing to give. */
module Wrappers {
  datatype Option<+T> = None | Some(value: T)
}
