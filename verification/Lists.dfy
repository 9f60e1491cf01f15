/** Sequences without repetition, and their elements as a set. */
module Lists {
  function Members<T>(s: seq<T>): set<T> { set x | x in s }

  predicate Distinct<T(==)>(s: seq<T>) { forall i, j :: 0 <= i < j < |s| ==> s[i] != s[j] }

  lemma {:induction false} CountMembers<T>(s: seq<T>)
    requires Distinct(s)
    ensures |Members(s)| == |s|
  {
    if s != [] {
      var n := |s| - 1;
      CountMembers(s[..n]);
      assert s == s[..n] + [s[n]];
      assert Members(s) == Members(s[..n]) + {s[n]};
      assert s[n] !in s[..n];
    }
  }
}
