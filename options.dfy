/** The optional value used for NULL-able results: a token pointer that may be NULL,
    a table index that may be missing. */
module Options {
  datatype Option<T> = None | Some(value: T)
}
