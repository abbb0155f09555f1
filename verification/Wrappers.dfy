/** The optional values that the modelled records are made of. */
module Wrappers {
  datatype Option<T> = None | Some(value: T) {
    function GetOr(default: T): T {
      match this
      case Some(v) => v
      case None => default
    }

    // Rust's `Option::or`: the receiver when it is present, else the argument
    function Or(other: Option<T>): Option<T> {
      if Some? then this else other
    }
  }
}
