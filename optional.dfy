/** Python's `Optional[float]` fields (a timestamp or a mark that may be None). */
module Optional {

  datatype Option<+T> = None | Some(value: T)
}
