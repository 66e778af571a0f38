/** The optional value shared by both modules: a Python `None` or a present value. */
module Options {
  datatype Option<+T> = None | Some(value: T)
}
