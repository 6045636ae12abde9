/** The optional value used wherever the analyzer can find nothing or a Python step raises. */
module Wrappers {

  datatype Option<+T> = None | Some(value: T)
}
