/** The `None`-or-value results that the Python code returns or stores. */
module Optional {
  datatype Option<+T> = None | Some(value: T)
}
