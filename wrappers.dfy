/** The optional value used for table lookups and for parsing. */
module Wrappers {

  datatype Option<+T> = None | Some(value: T)
}
