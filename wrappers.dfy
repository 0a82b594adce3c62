/** The optional-value datatype used for absent channels and failed platform calls. */
module Wrappers {
  datatype Option<+T> = None | Some(value: T)
}
