/** The optional-value type shared by the readers of generated text. */
module Wrappers {
  datatype Option<T> = None | Some(value: T)
}
