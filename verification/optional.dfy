/** An optional value, standing for the source's `None`-able fields and lookups. */
module Optional {
  datatype Option<+T> = None | Some(value: T)
}
