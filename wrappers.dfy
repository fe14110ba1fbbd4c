/** The optional value used where the component has `undefined` or `null`. */
module Wrappers {
  datatype Option<+T> = None | Some(value: T)
}
