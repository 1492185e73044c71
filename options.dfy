/** The optional value the response uses where PHP returns the `false` sentinel. */
module Options {

  datatype Option<+T> = None | Some(value: T)

}
