/** A value that may be absent: an optional field of a TypeScript object
    (`field?: T`), or a reading that may find nothing. */
module Optional {

  datatype Option<+T> = None | Some(value: T)
}
