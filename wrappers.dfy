/** The conventional optional-value datatype, used for remote answers that may be missing. */
module Wrappers {

  datatype Option<+T> = None | Some(value: T)
}
