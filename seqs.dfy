/** Facts about sequences shared by the list-manipulating parts of the model. */
module Seqs {
  /** No element occurs twice. */
  predicate Distinct<T(==)>(s: seq<T>) {
    forall i, j :: 0 <= i < j < |s| ==> s[i] != s[j]
  }

  /** Dropping the first element keeps a sequence without repeats, and that element does not
      occur again. */
  lemma DistinctTail<T>(s: seq<T>)
    requires |s| > 0 && Distinct(s)
    ensures Distinct(s[1..]) && s[0] !in s[1..]
  {
    forall i, j | 0 <= i < j < |s| - 1 ensures s[1..][i] != s[1..][j] {
      assert s[i + 1] != s[j + 1];
    }
    forall i | 0 <= i < |s| - 1 ensures s[1..][i] != s[0] {
      assert s[0] != s[i + 1];
    }
  }
}
