/** The optional-value datatype used for PHP's "value or null/false" returns. */
module Options {

  datatype Option<+T> = None | Some(value: T)
}
