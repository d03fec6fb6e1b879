/** What several modules share. */
module Commons {
  datatype Option<T> = None | Some(value: T)

  const EPS := 0.000001

  ghost predicate Distinct(s: seq<nat>) {
    forall j, k :: 0 <= j < k < |s| ==> s[j] != s[k]
  }
}
