/** The optional-value datatype the rest of the model uses for "no value". */
module Wrappers {

  datatype Option<+T> = None | Some(value: T)
}
