/** Python's `None | value`, shared by all modules. */
module Options {

  datatype Option<+T> = None | Some(value: T) {

    /** This value, or `other` when there is none. */
    function Or(other: Option<T>): Option<T> {
      if Some? then this else other
    }
  }
}
