/** An optional value: the presence or absence of a key in a dictionary-like store. */
module Options {
  datatype Option<+T> = None | Some(value: T)
}
