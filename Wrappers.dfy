/** The Some/None datatype used where the source has a nullable reference. */
module Wrappers {

  datatype Option<+T> = None | Some(value: T)
}
