/** The usual optional-value wrapper, standing for Python's `None`. */
module Options {
  datatype Option<T> = None | Some(value: T)
}
