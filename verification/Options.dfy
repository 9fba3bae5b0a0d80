/** The optional value used for Python's `None`-able fields. */
module Options {

  datatype Option<+T> = None | Some(value: T)
}
