/** An optional value, for parses and checks that can fail. */
module Options {

  datatype Option<+T> = None | Some(value: T)

}
