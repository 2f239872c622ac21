/** The optional value returned by the contract's lookups and by integer parsing. */
module Options {

  datatype Option<T> = None | Some(value: T)
}
