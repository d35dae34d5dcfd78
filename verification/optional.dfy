/** An optional value, used where the source has `false` or a missing entry. */
module Optional {

  datatype Option<+T> = None | Some(value: T)
}
