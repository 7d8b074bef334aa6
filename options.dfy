/** The optional value used wherever the chat bot may or may not find something. */
module Options {
  datatype Option<+T> = None | Some(value: T)
}
