/** The optional value that stands in for a Java reference that may be `null`. */
module Options {

  datatype Option<+T> = None | Some(value: T)
}
