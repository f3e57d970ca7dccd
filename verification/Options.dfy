/** The one optional-value type every other module uses. */
module Options {
  datatype Option<+T> = None | Some(value: T)
}
