/** The usual optional value, used for "no handler matched" and for an empty thread slot. */
module Options {
  datatype Option<T> = None | Some(value: T)
}
