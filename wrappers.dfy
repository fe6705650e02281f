/** The optional value used where the source returns an `Optional` or catches an exception. */
module Wrappers {

  datatype Option<+T> = None | Some(value: T)
}
