/** The optional-value datatype used for JavaScript's `undefined` / absent fields. */
module Wrappers {

  datatype Option<+T> = None | Some(value: T)
}
