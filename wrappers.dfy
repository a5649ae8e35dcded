/** The optional value used for lookups that may find nothing and for a
    configuration slot that may still be empty. */
module Wrappers {

  datatype Option<+T> = None | Some(value: T)
}
