/** The optional value used by the readers of the model. */
module Wrappers {

  datatype Option<T> = None | Some(value: T)
}
