/** The null-or-value type used for every nullable column of the modelled tables. */
module Options {
  datatype Option<+T> = None | Some(value: T)
}
