/** The optional value used for TypeScript's optional properties (`x?: T`). */
module Wrappers {
  datatype Option<+T> = None | Some(value: T)
}
