/** The optional value used for label lookups and for estimates that cannot be formed. */
module Options {

  datatype Option<+T> = None | Some(value: T)
}
