/** The optional value used by the first-match searches. */
module Options {
  datatype Option<+T> = None | Some(value: T)
}
