/** Kotlin's nullable values (`T?`), as a plain Some/None datatype. */
module Options {

  datatype Option<+T> = None | Some(value: T)
}
