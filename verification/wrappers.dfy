/** The optional value used where the source has `null` or `NaN`. */
module Wrappers {

  datatype Option<+T> = None | Some(value: T)
}
