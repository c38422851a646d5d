/** Optional values, used for the two cache files that may or may not exist. */
module Options {
  datatype Option<+T> = None | Some(value: T)
}
