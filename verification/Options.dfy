/** The optional value shared by the models below: the program's `undefined` or a missing row. */
module Options {
  datatype Option<+T> = None | Some(value: T)
}
