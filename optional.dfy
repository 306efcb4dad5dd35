/** An optional value: the model's stand-in for a nullable or absent value. */
module Optional {
  datatype Option<+T> = None | Some(value: T)
}
