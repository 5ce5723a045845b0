/** The optional value the recognizer passes around in place of Python's `None`. */
module Wrappers {

  /** `None` is the "no contour found" outcome; `Some(v)` carries an angle. */
  datatype Option<+T> = None | Some(value: T)
}
