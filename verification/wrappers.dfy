/** The optional-value datatype used wherever the source has a value or `null`. */
module Wrappers {

  datatype Option<+T> = None | Some(value: T)
}
