/** The optional value used for TypeScript's optional properties and for `Array.find`. */
module Wrappers {
  datatype Option<+T> = None | Some(value: T)
}
