/** Types that any module may use. */
module Wrappers {

  datatype Option<+T> = None | Some(value: T)

  /** How a write went: without effect, effective although its caller saw it throw, or effective and seen. */
  datatype Write = Lost | Unseen | Seen {
    predicate Took() { this != Lost }
  }
}
