/**
What several of the models need.
*/
module Common {

  datatype Option<T> = None | Some(value: T)

  /** No two entries are the same. */
  ghost predicate Distinct<T>(s: seq<T>) {
    forall i, j :: 0 <= i < j < |s| ==> s[i] != s[j]
  }
}
