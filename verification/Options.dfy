/** A value that may be missing: Python's None where it stands for "no result". */
module Options {
  datatype Option<+T> = None | Some(value: T)
}
