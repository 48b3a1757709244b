/** The optional-value wrapper used for the source's `undefined` fields and failed lookups. */
module Options {
  datatype Option<+T> = None | Some(value: T)
}
