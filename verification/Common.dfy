/** What several parts of the model share. */
module Common {

  datatype Option<+T> = None | Some(value: T)

  ghost predicate Distinct<T>(s: seq<T>) {
    forall i, j | 0 <= i < j < |s| :: s[i] != s[j]
  }

  lemma Element<T>(b: set<T>) returns (x: T)
    requires b != {}
    ensures x in b
  {
    x :| x in b;
  }
}
