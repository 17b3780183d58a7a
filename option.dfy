/** A value that may be absent: the model's stand-in for a nullable JavaScript field. */
module Optional {
  datatype Option<+T> = None | Some(value: T)
}
