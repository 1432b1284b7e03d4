/** The usual optional value, used for JavaScript's "maybe absent" fields. */
module Options {

  datatype Option<+T> = None | Some(value: T)
}
