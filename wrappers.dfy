/** The optional value used where a reading of text may fail. */
module Wrappers {

  datatype Option<+T> = None | Some(value: T)
}
