/** The outcome of an operation that the source can abort with an exception. */
module Options {
  datatype Option<T> = None | Some(value: T)
}
