/** The conventional optional value, used where the C code holds a pointer that may be NULL. */
module Options {
  datatype Option<+T> = None | Some(value: T)
}
