/** The option type and the text test that several models share. */
module Wrappers {

  datatype Option<+T> = None | Some(value: T)

  predicate IsSpace(c: char) { c == ' ' || c == '\t' || c == '\n' || c == '\r' }
  predicate Blank(s: string) { forall i :: 0 <= i < |s| ==> IsSpace(s[i]) }
}
