/** The usual optional value, used where the source has a nullable pointer or a parse that can fail. */
module Options {
  datatype Option<+T> = None | Some(value: T)
}
