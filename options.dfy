/** The optional value the JavaScript sources express with `null` or `undefined`. */
module Options {
  datatype Option<+T> = None | Some(value: T)
}
