module Options {
  /** A value that may be missing: a pointer that may be nil, or a result beside an error. */
  datatype Option<+T> = None | Some(value: T)
}
