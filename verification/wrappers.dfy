/** The optional-value type both programs need where Go uses a nil
    pointer or a missing value. */
module Wrappers {
  datatype Option<+T> = None | Some(value: T)
}
