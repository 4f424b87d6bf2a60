/** The optional value used for a file that may fail to open and for a parsed report line. */
module Wrappers {
  datatype Option<+T> = None | Some(value: T)
}
