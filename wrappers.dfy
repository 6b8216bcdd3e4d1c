/** The optional-value datatype used where the source has a nullable field or argument. */
module Wrappers {

  datatype Option<+T> = None | Some(value: T)
}
