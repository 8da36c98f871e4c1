/** An optional value: a C# nullable reference. */
module Options {
  datatype Option<T> = None | Some(value: T)
}
