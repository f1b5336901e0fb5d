/** An optional value, shared by the modules that report "nothing". */
module Wrappers {
  datatype Option<T> = None | Some(value: T)
}
