/** The optional value used wherever the source returns `null` or reads a nullable field. */
module Wrappers {

  datatype Option<+T> = None | Some(value: T)
}
