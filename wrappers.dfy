/** The optional-value wrapper used for the message's optional text fields and for parse results. */
module Wrappers {
  datatype Option<+T> = None | Some(value: T)
}
