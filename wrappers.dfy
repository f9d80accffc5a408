/** The optional value used for JavaScript's `null` (and for a parse that gives NaN). */
module Wrappers {
  datatype Option<+T> = None | Some(value: T)
}
