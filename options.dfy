/** The optional values the component keeps in its state (a pending pointer offset, an icon index). */
module Options {
  datatype Option<T> = None | Some(value: T)
}
