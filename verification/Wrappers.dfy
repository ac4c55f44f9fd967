/** The optional value used for a nullable column or an `undefined`. */
module Wrappers {
  datatype Option<+T> = None | Some(value: T)
}
