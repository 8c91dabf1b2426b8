/** A value, or none: JavaScript's undefined and null. */
module Options {
  datatype Option<+T> = None | Some(value: T)
}
