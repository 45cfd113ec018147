/// An optional value, for the source's NULL pointers and the answers the
/// operating system may or may not give.
module Options {

  datatype Option<+T> = None | Some(value: T)
}
