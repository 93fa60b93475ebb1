/** The optional-value datatype used where the source passes `null`. */
module Wrappers {

  datatype Option<+T> = None | Some(value: T)
}
