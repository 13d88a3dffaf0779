/** Results of lookups and of requests that may be refused. */
module Options {
  datatype Option<+T> = None | Some(value: T)
}
