/** A result that may be missing, and the start of a text. */
module Wrappers {
  datatype Option<+T> = None | Some(value: T)

  predicate Begins(s: string, p: string) {
    |p| <= |s| && forall i :: 0 <= i < |p| ==> s[i] == p[i]
  }
}
