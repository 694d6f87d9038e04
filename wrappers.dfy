/** The optional value used for JavaScript's `null`-or-value fields. */
module Wrappers {

  datatype Option<+T> = None | Some(value: T)
}
