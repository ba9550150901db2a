/** The conventional Some/None datatype, used where the source has a nil
    value or an error return. */
module Options {
  datatype Option<+T> = None | Some(value: T)
}
