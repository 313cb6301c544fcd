/** The optional-value datatype used where a lookup can find nothing. */
module Wrappers {

  datatype Option<+T> = None | Some(value: T)
}
