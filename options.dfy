/** The optional value the model uses wherever the C code has a value that may be missing
    (a key absent from an event, a parameter the store could not fetch). */
module Options {
  datatype Option<+T> = None | Some(value: T)
}
