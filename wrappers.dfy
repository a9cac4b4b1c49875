/** The optional-value datatype used for nullable slots and values that may be absent. */
module Wrappers {

  datatype Option<+T> = None | Some(value: T)
}
