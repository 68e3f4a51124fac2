/** The value a lookup may or may not produce. */
module Options {
  datatype Option<+T> = None | Some(value: T)
}
