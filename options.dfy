/** The Some/None wrapper used by the parsers that serve as partners of the formatters. */
module Options {

  datatype Option<T> = None | Some(value: T)
}
