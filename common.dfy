/** Small shared vocabulary for the component models. */
module Common {

  /** A value that may be absent (a JavaScript `null`/`undefined`). */
  datatype Option<+T> = None | Some(value: T)
}
