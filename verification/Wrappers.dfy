/** An optional value: a field that may be unset, a map entry that may be missing. */
module Wrappers {
  datatype Option<+T> = None | Some(value: T)
}
