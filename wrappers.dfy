/** The optional value used for Python's `Optional[...]` fields and for
    "printed a line or printed nothing". */
module Wrappers {
  datatype Option<+T> = None | Some(value: T)
}
