/** The optional value used wherever JavaScript has `undefined` or `null`. */
module Options {
  datatype Option<+T> = None | Some(value: T)
}
