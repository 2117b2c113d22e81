/** The optional value that stands for Go's nil, zero-value and "comma ok" results. */
module Options {
  datatype Option<+T> = None | Some(value: T)
}
