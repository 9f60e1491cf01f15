/** The order of sort.Strings, and that it leaves nothing to chance. */
module NameOrder {
  import opened Lists

  /** Lexicographic order. */
  predicate Below(a: string, b: string) {
    b != "" && (a == "" || a[0] < b[0] || (a[0] == b[0] && Below(a[1..], b[1..])))
  }

  /** At k the two part: a ends there, or has the lesser character. */
  predicate PartsAt(a: string, b: string, k: nat) { k <= |a| && k < |b| && a[..k] == b[..k] && (k == |a| || a[k] < b[k]) }

  /** The order compares the first characters in which the names differ; a name comes before its extensions. */
  lemma {:induction false} BelowIsLexicographic(a: string, b: string)
    ensures Below(a, b) <==> exists k: nat :: PartsAt(a, b, k)
  {
    if a != "" && b != "" && a[0] == b[0] {
      BelowIsLexicographic(a[1..], b[1..]);
      if k: nat :| PartsAt(a[1..], b[1..], k) {
        assert a[..k + 1] == [a[0]] + a[1..][..k] && b[..k + 1] == [b[0]] + b[1..][..k];
        assert PartsAt(a, b, k + 1);
      }
      if k: nat :| PartsAt(a, b, k) {
        assert a[1..][..k - 1] == a[..k][1..] && b[1..][..k - 1] == b[..k][1..];
        assert PartsAt(a[1..], b[1..], k - 1);
      }
    } else if Below(a, b) {
      assert PartsAt(a, b, 0);
    } else if k: nat :| PartsAt(a, b, k) {
      PartsAtHead(a, b, k);
    }
  }

  lemma PartsAtHead(a: string, b: string, k: nat)
    requires PartsAt(a, b, k)
    ensures k > 0 ==> a != "" && b != "" && a[0] == b[0]
  {
    if k > 0 { assert a[..k][0] == a[0] && b[..k][0] == b[0]; }
  }

  lemma {:induction false} Total(a: string, b: string)
    ensures a == b || Below(a, b) || Below(b, a)
  {
    if a != "" && b != "" && a[0] == b[0] {
      Total(a[1..], b[1..]);
      assert a == [a[0]] + a[1..] && b == [b[0]] + b[1..];
    }
  }

  lemma {:induction false} Transitive(a: string, b: string, c: string)
    requires Below(a, b) && Below(b, c)
    ensures Below(a, c)
  {
    if a != "" && a[0] == b[0] && b[0] == c[0] { Transitive(a[1..], b[1..], c[1..]); }
  }

  lemma {:induction false} Irreflexive(a: string)
    ensures !Below(a, a)
  {
    if a != "" { Irreflexive(a[1..]); }
  }

  predicate AtMost(a: string, b: string) { a == b || Below(a, b) }

  lemma AtMostAntisymmetric(a: string, b: string)
    requires AtMost(a, b) && AtMost(b, a)
    ensures a == b
  {
    if a != b {
      Transitive(a, b, a);
      Irreflexive(a);
    }
  }

  predicate Ascending(s: seq<string>) { forall i, j :: 0 <= i < j < |s| ==> Below(s[i], s[j]) }

  /** Some order in which Go may range over a map's keys. */
  predicate Enumerates(s: seq<string>, keys: set<string>) { Distinct(s) && Members(s) == keys }

  lemma AscendingFirst(a: seq<string>, b: seq<string>)
    requires Ascending(a) && Ascending(b) && Members(a) == Members(b) && a != []
    ensures b != [] && a[0] == b[0]
  {
    assert a[0] in Members(b);
    assert b[0] in Members(a);
    var i :| 0 <= i < |a| && a[i] == b[0];
    var j :| 0 <= j < |b| && b[j] == a[0];
    if i > 0 && j > 0 { AtMostAntisymmetric(a[0], b[0]); }
  }

  /** A set of names has one ascending list. */
  lemma {:induction false} OneAscendingList(a: seq<string>, b: seq<string>)
    requires Ascending(a) && Ascending(b) && Members(a) == Members(b)
    ensures a == b
  {
    if a == [] {
      if b != [] { AscendingFirst(b, a); }
    } else {
      AscendingFirst(a, b);
      AscendingRest(a);
      AscendingRest(b);
      OneAscendingList(a[1..], b[1..]);
    }
  }

  lemma AscendingRest(a: seq<string>)
    requires Ascending(a) && a != []
    ensures Ascending(a[1..]) && Members(a[1..]) == Members(a) - {a[0]}
  {
    Irreflexive(a[0]);
    assert a == [a[0]] + a[1..];
    forall i | 0 < i < |a| ensures a[i] != a[0] { assert Below(a[0], a[i]); }
  }

  /** sort.Strings of names of which none comes twice. */
  method Sort(names: seq<string>) returns (r: seq<string>)
    requires Distinct(names)
    ensures Ascending(r) && Members(r) == Members(names)
  {
    r := [];
    for i := 0 to |names|
      invariant Ascending(r) && Members(r) == Members(names[..i])
    {
      assert names[..i + 1] == names[..i] + [names[i]];
      assert names[i] !in names[..i];
      assert names[i] !in Members(r);
      r := Insert(r, names[i]);
    }
    assert names[..|names|] == names;
  }

  method Insert(s: seq<string>, x: string) returns (r: seq<string>)
    requires Ascending(s) && x !in s
    ensures Ascending(r) && Members(r) == Members(s) + {x}
  {
    var k := 0;
    while k < |s| && Below(s[k], x)
      invariant 0 <= k <= |s|
      invariant forall j :: 0 <= j < k ==> Below(s[j], x)
    {
      k := k + 1;
    }
    r := s[..k] + [x] + s[k..];
    Between(s, k, x);
  }

  lemma Between(s: seq<string>, k: nat, x: string)
    requires Ascending(s) && k <= |s| && x !in s
    requires forall j :: 0 <= j < k ==> Below(s[j], x)
    requires k < |s| ==> !Below(s[k], x)
    ensures var r := s[..k] + [x] + s[k..]; Ascending(r) && Members(r) == Members(s) + {x}
  {
    hide Below;
    forall j | k <= j < |s| ensures Below(x, s[j]) {
      assert s[k] in s;
      Total(x, s[k]);
      if j > k { Transitive(x, s[k], s[j]); }
    }
    Placed(s, k, x);
    var r := s[..k] + [x] + s[k..];
    assert s == s[..k] + s[k..];
    assert forall y :: y in r <==> y in s || y == x;
  }

  lemma Placed(s: seq<string>, k: nat, x: string)
    requires Ascending(s) && k <= |s|
    requires forall j :: 0 <= j < k ==> Below(s[j], x)
    requires forall j :: k <= j < |s| ==> Below(x, s[j])
    ensures Ascending(s[..k] + [x] + s[k..])
  {
    hide Below;
    var r := s[..k] + [x] + s[k..];
    forall i, j | 0 <= i < j < |r| ensures Below(r[i], r[j]) {
      PlacedAt(s, k, x, i);
      PlacedAt(s, k, x, j);
    }
  }

  lemma PlacedAt(s: seq<string>, k: nat, x: string, i: nat)
    requires k <= |s| && i <= |s|
    ensures (s[..k] + [x] + s[k..])[i] == if i < k then s[i] else if i == k then x else s[i - 1]
  {
  }

  /** The first of an ascending list is the least name. */
  lemma FirstIsLeast(s: seq<string>)
    requires Ascending(s) && s != []
    ensures s[0] in s && forall x :: x in s ==> AtMost(s[0], x)
  {
  }
}

/** Replicas of a v2 engine. */
module Replicas {
  datatype Mode = RW | WO | ERR
}
