/** The optional value the model uses for Python's "value or nothing" results. */
module Wrappers {

  datatype Option<+T> = None | Some(value: T)
}
