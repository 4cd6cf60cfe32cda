/** The usual optional value; `None` stands for a C null pointer. */
module Options {
  datatype Option<+T> = None | Some(value: T)
}
