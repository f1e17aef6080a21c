/** The optional-value type used for the one partial library call the
    pipeline makes (JSON parsing) and for index searches over strings. */
module Wrappers {

  datatype Option<+T> = None | Some(value: T)
}
