/** The usual optional value: a JavaScript `null` or absent result becomes `None`. */
module Options {

  datatype Option<+T> = None | Some(value: T)

}
