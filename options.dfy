/** The optional result of a lookup or a recogniser (Rust's `Option`). */
module Options {

  datatype Option<+T> = None | Some(value: T) {

    /** `Option::or`: this option if it holds a value, otherwise `other`. */
    function Or(other: Option<T>): (r: Option<T>)
      ensures Some? ==> r == this
      ensures None? ==> r == other
    {
      match this
      case Some(_) => this
      case None => other
    }
  }

}
