/** The option type shared by every component of the model. */
module Wrappers {
  datatype Option<+T> = None | Some(value: T)
}
