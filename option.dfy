/** The optional value the lookups return when a handle or index is not recognised. */
module Optional {
  datatype Option<T> = None | Some(value: T)
}
