/** An optional value: the model's stand-in for NULL or for a search
    that finds nothing. */
module Options {
  datatype Option<T> = None | Some(value: T)
}
