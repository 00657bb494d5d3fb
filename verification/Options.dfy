module Options {
  datatype Option<T> = None | Some(value: T) {
    function Or(other: T): T {
      match this case None => other case Some(v) => v
    }
  }
}
