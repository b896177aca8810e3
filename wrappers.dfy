/** The optional value used for the scene's `String?` selection. */
module Wrappers {

  datatype Option<+T> = None | Some(value: T) {

    /** This value when it is present, otherwise the fallback. */
    function OrElse(fallback: Option<T>): Option<T> {
      if Some? then this else fallback
    }
  }
}
