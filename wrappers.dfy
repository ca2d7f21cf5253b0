/** The optional value used wherever the scripts test a value or element for presence. */
module Wrappers {

  datatype Option<T> = None | Some(value: T)
}
