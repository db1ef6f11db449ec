/** An optional value, for lookups that may find nothing and fields that may be unset. */
module Options {
  datatype Option<T> = None | Some(value: T)
}
