/** The optional result of a single-row query: `null` in the source becomes `None`. */
module Wrappers {
  datatype Option<+T> = None | Some(value: T)
}
