/** The optional-value datatype used for rule fields that a rule object may
    lack (a missing key in the source's JSON dictionaries). */
module Wrappers {

  datatype Option<+T> = None | Some(value: T)
}
