/** The optional value used for state that may still be the empty object `{}`. */
module Wrappers {

  datatype Option<+T> = None | Some(value: T)
}
