/** The optional value used for "no hit" and for parse failures. */
module Optional {
  datatype Option<T> = None | Some(value: T)
}
