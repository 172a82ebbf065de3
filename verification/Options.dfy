/** The one optional value the modules below share. */
module Options {
  datatype Option<+T> = None | Some(value: T)
}
