/** The optional value used for `Option<usize>` indices and for payload lookups. */
module Wrappers {
  datatype Option<+T> = None | Some(value: T)
}
