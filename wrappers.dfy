/** The optional-value shape the model needs. */
module Wrappers {

  datatype Option<+T> = None | Some(value: T)
}
