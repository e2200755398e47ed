/** The optional value shared by the logger and the proxy models. */
module Options {

  datatype Option<+T> = None | Some(value: T)
}
