/** The optional value the model uses wherever the program returns a value
    or nothing. */
module Wrappers {
  datatype Option<T> = None | Some(value: T)
}
