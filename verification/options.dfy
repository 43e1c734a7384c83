/** The optional value returned by a lookup that can miss. */
module Options {

  datatype Option<+T> = None | Some(value: T)
}
