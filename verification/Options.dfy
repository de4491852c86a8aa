module Options {
  datatype Option<+T> = None | Some(value: T)
  {
    // The first value there is.
    function Or(other: Option<T>): Option<T> {
      if Some? then this else other
    }
  }
}
