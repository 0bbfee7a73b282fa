/** A value that may be absent: Python's `None` for the scroll reference and
    for a frame in which the detector saw no hand. */
module Wrappers {

  datatype Option<+T> = None | Some(value: T)
}
