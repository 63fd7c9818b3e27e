/** Absent-or-present values, standing for the source's nullable columns. */
module Options {
  datatype Option<+T> = None | Some(value: T)
}
