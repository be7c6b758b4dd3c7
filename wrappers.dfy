/** The optional value used for data that JavaScript leaves `undefined`. */
module Wrappers {

  datatype Option<+T> = None | Some(value: T)
}
