/** The optional value used where the source returns `undefined` for "nothing". */
module Wrappers {

  datatype Option<+T> = None | Some(value: T)
}
