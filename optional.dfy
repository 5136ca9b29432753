/** The Some/None datatype used for Python's "value or None" results. */
module Optional {

  datatype Option<+T> = None | Some(value: T)
}
