/** Kotlin's nullable values (`String?`) as an Option datatype. */
module Wrappers {

  datatype Option<+T> = None | Some(value: T)

  /** Kotlin's `String?.isNullOrEmpty()`. */
  predicate IsNullOrEmpty(s: Option<string>) {
    s.None? || s.value == ""
  }
}
