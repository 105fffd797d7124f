/** Small shared datatypes and sequence facts. */
module Wrappers {

  datatype Option<+T> = None | Some(value: T)

  /** The characters Python's str.isspace accepts. */
  predicate IsSpace(c: char) {
    || '\U{9}' <= c <= '\U{D}' || '\U{1C}' <= c <= '\U{20}' || c in "\U{85}\U{A0}\U{1680}"
    || '\U{2000}' <= c <= '\U{200A}' || c in "\U{2028}\U{2029}\U{202F}\U{205F}\U{3000}"
  }

  predicate NoDuplicates<T(==)>(s: seq<T>) {
    forall i, j :: 0 <= i < j < |s| ==> s[i] != s[j]
  }

  lemma TakeStep<T>(s: seq<T>, j: nat)
    requires j < |s|
    ensures s[..j + 1] == s[..j] + [s[j]]
  {}

  lemma TakeAll<T>(s: seq<T>)
    ensures s[..|s|] == s
  {}
}
