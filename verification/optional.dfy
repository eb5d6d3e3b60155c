/** The usual optional value: the source's `T | null` and `T | undefined`. */
module Optional {

  datatype Option<+T> = None | Some(value: T)

}
