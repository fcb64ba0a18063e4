// Result types shared by the models of the individual components.
module Wrappers {
  datatype Option<+T> = None | Some(value: T)
}
