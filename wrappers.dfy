/** The usual optional value, for operations that the source lets fail. */
module Wrappers {

  datatype Option<+T> = None | Some(value: T)
}
