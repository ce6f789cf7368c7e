/** The optional-value datatype used for the source's `null`, `NaN` and "absent" results. */
module Wrappers {

  datatype Option<+T> = None | Some(value: T)
}
