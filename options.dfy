/** The optional value used wherever the source returns None, raises, or has nothing to give. */
module Options {

  datatype Option<+T> = None | Some(value: T)
}
