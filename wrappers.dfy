/** Small shared value wrappers. */
module Wrappers {

  /** A value that may be absent: a missing JSON key, an empty query result. */
  datatype Option<+T> = None | Some(value: T)
}
