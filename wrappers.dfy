/** The optional value used wherever the app receives a Swift optional. */
module Wrappers {

  datatype Option<+T> = None | Some(value: T)
}
