/** The Some/None datatype used for the source's optional fields and `undefined` arguments. */
module Wrappers {
  datatype Option<+T> = None | Some(value: T)
}
