/** The Option type, standing in for a nil result of a lookup. */
module Wrappers {

  /** A value that may be absent; `None` plays the part of a nil result. */
  datatype Option<+T> = None | Some(value: T)
}
