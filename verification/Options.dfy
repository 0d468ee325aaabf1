/** A value that may be absent: JavaScript's `undefined`, Go's `nil`, SQL's NULL. */
module Options {
  datatype Option<+T> = None | Some(value: T)
}
