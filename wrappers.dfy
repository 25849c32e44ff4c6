/** The optional value used throughout the model: `undefined` in the source becomes `None`. */
module Wrappers {

  datatype Option<+T> = None | Some(value: T)
}
