/** Optional values, standing in for Java references that may be null. */
module Maybe {
  datatype Option<+T> = None | Some(value: T)
}
