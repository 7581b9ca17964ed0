/** Optional values and ASCII character classes. */
module Basics {

  datatype Option<+T> = None | Some(value: T)

  predicate IsDigit(c: char) { '0' <= c <= '9' }
  predicate Lower(c: char) { 'a' <= c <= 'z' }
  predicate Upper(c: char) { 'A' <= c <= 'Z' }
  predicate LowerOrDigit(c: char) { Lower(c) || IsDigit(c) }
  predicate Alphanumeric(c: char) { LowerOrDigit(c) || Upper(c) }

  /** No character below 32 and no DEL. */
  predicate ControlFree(s: string)
  {
    forall i :: 0 <= i < |s| ==> s[i] as int >= 32 && s[i] as int != 127
  }
}
