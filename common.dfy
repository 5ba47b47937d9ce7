/** Small helper types shared by every module of the model. */
module Common {

  /** A value that may be absent (Python's None). */
  datatype Option<+T> = None | Some(value: T)
}
