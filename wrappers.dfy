/** The optional value used for "no previous state file". */
module Wrappers {

  datatype Option<+T> = None | Some(value: T)
}
