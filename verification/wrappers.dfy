/** The Some/None datatype used for Python's `Optional[...]` values. */
module Wrappers {

  datatype Option<+T> = None | Some(value: T)
}
