/** An optional value: a variable that may still be unset. */
module Options {
  datatype Option<+T> = None | Some(value: T)
}
