/** Small value wrappers shared by the other modules. */
module Wrappers {

  /** A value that may be absent: a NULL pointer, an empty queue, no report. */
  datatype Option<+T> = None | Some(value: T)
}
