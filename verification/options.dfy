/** The optional-value wrapper used throughout the scene model. */
module Options {

  /** A value that may be absent: JavaScript's `null`/`undefined` slots. */
  datatype Option<+T> = None | Some(value: T)
}
