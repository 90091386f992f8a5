/** The optional value used wherever a JavaScript operation may have no result. */
module Options {

  datatype Option<+T> = None | Some(value: T)
}
