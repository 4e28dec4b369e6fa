/** The optional-value type used for the tokeniser cursor and the parsers. */
module Options {

  datatype Option<T> = None | Some(value: T)
}
