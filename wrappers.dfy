/** The Option datatype shared by the two components. */
module Wrappers {

  /** A value that may be absent: an unavailable capability, a missing handle. */
  datatype Option<+T> = None | Some(value: T)
}
