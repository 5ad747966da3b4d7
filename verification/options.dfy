/** The optional value used wherever the program returns a null pointer or a failure flag. */
module Options {
  datatype Option<+T> = None | Some(value: T)
}
