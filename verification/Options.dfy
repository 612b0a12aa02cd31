/** The optional value the source writes as `T | undefined`. */
module Options {
  datatype Option<+T> = None | Some(value: T)
}
