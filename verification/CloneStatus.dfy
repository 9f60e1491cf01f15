/** Snapshot clone status of a v2 volume, collected from its replicas. */
module CloneStatus {
  import opened Wrappers
  import opened Lists
  import opened NameOrder
  import opened Replicas

  datatype Status = Status(isCloning: bool, error: string, progress: int, state: string, fromReplica: string,
                           snapshotName: string)

  /** What asking one replica comes to: its client, the status call (whose result may be nil), the close. */
  datatype Answer = NoClient | Asked(status: Option<Status>, closed: bool)

  /** The engine, and what each replica would answer. */
  datatype Engine = Engine(modes: map<string, Mode>, addresses: map<string, string>, answers: map<string, Answer>)

  predicate WellFormed(e: Engine) { e.modes.Keys <= e.answers.Keys }

  const NO_STATUS := Status(false, "", 0, "", "", "")

  function Tcp(address: string): string { if address == "" then "" else "tcp://" + address }

  lemma TcpInjective(a: string, b: string)
    requires Tcp(a) == Tcp(b)
    ensures a == b
  {
    if a != "" && b != "" {
      assert Tcp(a)[6..] == a && Tcp(b)[6..] == b;
    }
  }

  predicate Answering(e: Engine, n: string) {
    && n in e.modes && e.modes[n] == RW && n in e.addresses && n in e.answers
    && e.answers[n].Asked? && e.answers[n].status.Some?
  }

  /** n reports a clone state. */
  predicate Stateful(e: Engine, n: string) { Answering(e, n) && e.answers[n].status.value.state != "" }

  /** n was reached and its connection closed cleanly, but it has no clone state yet. */
  predicate Stateless(e: Engine, n: string) {
    Answering(e, n) && e.answers[n].status.value.state == "" && e.answers[n].closed
  }

  function Key(e: Engine, n: string): string
    requires n in e.addresses
  {
    Tcp(e.addresses[n])
  }

  /** resp.Status after the names of enumeration: a later replica overwrites an earlier one at its address. */
  function Collected(e: Engine, enumeration: seq<string>): map<string, Status> {
    if enumeration == [] then map[]
    else
      var n := enumeration[|enumeration| - 1];
      var m := Collected(e, enumeration[..|enumeration| - 1]);
      if Stateful(e, n) then m[Key(e, n) := e.answers[n].status.value] else m
  }

  ghost predicate Least(e: Engine, n: string) { Stateless(e, n) && forall x :: Stateless(e, x) ==> AtMost(n, x) }

  /** The response, by what was collected and the names that were reached without a state. */
  ghost predicate Responds(e: Engine, m: map<string, Status>, r: Option<map<string, Status>>) {
    if m != map[] then r == Some(m)
    else if exists n :: Stateless(e, n) then
      exists n :: Least(e, n) && r == Some(map[Key(e, n) := NO_STATUS])
    else r == None
  }

  /** The aggregation of V2 SnapshotCloneStatus, for any enumeration of the mode map; None is the final error. */
  method Aggregate(e: Engine, enumeration: seq<string>) returns (r: Option<map<string, Status>>)
    requires WellFormed(e) && Enumerates(enumeration, e.modes.Keys)
    ensures Responds(e, Collected(e, enumeration), r)
  {
    var status: map<string, Status> := map[];
    var reachable: seq<string> := [];
    for i := 0 to |enumeration|
      invariant status == Collected(e, enumeration[..i])
      invariant Distinct(reachable)
      invariant forall n :: n in reachable <==> n in enumeration[..i] && Stateless(e, n)
    {
      var n := enumeration[i];
      assert enumeration[..i + 1][..i] == enumeration[..i];
      assert enumeration[..i + 1] == enumeration[..i] + [n];
      assert n in Members(enumeration) && n !in enumeration[..i];
      if e.modes[n] != RW { continue; }
      if n !in e.addresses { continue; }
      var answer := e.answers[n];
      if answer.NoClient? { continue; }
      if answer.status.None? { continue; }
      if answer.status.value.state == "" {
        if answer.closed { reachable := reachable + [n]; }
        continue;
      }
      status := status[Tcp(e.addresses[n]) := answer.status.value];
    }
    assert enumeration[..|enumeration|] == enumeration;
    hide Stateful;
    forall n ensures n in reachable <==> Stateless(e, n) { assert n in e.modes ==> n in Members(enumeration); }
    if status == map[] && reachable != [] {
      var sorted := Sort(reachable);
      assert reachable[0] in Members(sorted);
      FirstIsLeast(sorted);
      assert forall n :: n in Members(sorted) <==> Stateless(e, n);
      assert sorted[0] in Members(sorted);
      assert Least(e, sorted[0]) by { assert forall n :: Stateless(e, n) ==> n in sorted; }
      status := map[Tcp(e.addresses[sorted[0]]) := NO_STATUS];
      return Some(status);
    }
    if status == map[] {
      assert forall n :: !Stateless(e, n);
      return None;
    }
    return Some(status);
  }

  // ----- what was collected -----

  /** Replicas at one address that both report a state report the same. */
  ghost predicate NoClash(e: Engine) {
    forall n, x :: !Clash(e, n, x)
  }

  predicate Clash(e: Engine, n: string, x: string) {
    Stateful(e, n) && Stateful(e, x) && e.addresses[n] == e.addresses[x] && e.answers[n].status != e.answers[x].status
  }

  lemma {:induction false} CollectedFrom(e: Engine, enumeration: seq<string>, k: string)
    ensures k in Collected(e, enumeration) <==> exists n :: n in enumeration && Stateful(e, n) && Key(e, n) == k
    ensures k in Collected(e, enumeration) ==>
              exists n :: n in enumeration && Stateful(e, n) && Key(e, n) == k
                          && Some(Collected(e, enumeration)[k]) == e.answers[n].status
  {
    if enumeration != [] {
      var init := enumeration[..|enumeration| - 1];
      CollectedFrom(e, init, k);
      assert enumeration == init + [enumeration[|enumeration| - 1]];
    }
  }

  lemma SameAddress(e: Engine, n: string, x: string)
    requires Stateful(e, n) && Stateful(e, x) && Key(e, n) == Key(e, x)
    ensures e.addresses[n] == e.addresses[x]
  {
    TcpInjective(e.addresses[n], e.addresses[x]);
  }

  /** Without a clash the response has each replica that reports a state, and nothing else. */
  lemma CollectedIsAll(e: Engine, enumeration: seq<string>, n: string)
    requires NoClash(e) && Enumerates(enumeration, e.modes.Keys) && Stateful(e, n)
    ensures Key(e, n) in Collected(e, enumeration)
    ensures Some(Collected(e, enumeration)[Key(e, n)]) == e.answers[n].status
  {
    CollectedFrom(e, enumeration, Key(e, n));
    assert n in Members(enumeration);
    var x :| x in enumeration && Stateful(e, x) && Key(e, x) == Key(e, n)
             && Some(Collected(e, enumeration)[Key(e, n)]) == e.answers[x].status;
    SameAddress(e, x, n);
    assert !Clash(e, x, n);
  }

  lemma CollectedCanonical(e: Engine, a: seq<string>, b: seq<string>)
    requires NoClash(e) && Enumerates(a, e.modes.Keys) && Enumerates(b, e.modes.Keys)
    ensures Collected(e, a) == Collected(e, b)
  {
    hide NoClash, Stateful;
    forall k | k in Collected(e, a) ensures k in Collected(e, b) && Collected(e, b)[k] == Collected(e, a)[k] {
      CollectedAgree(e, a, b, k);
    }
    forall k | k in Collected(e, b) ensures k in Collected(e, a) { CollectedAgree(e, b, a, k); }
  }

  lemma CollectedAgree(e: Engine, a: seq<string>, b: seq<string>, k: string)
    requires NoClash(e) && Enumerates(a, e.modes.Keys) && Enumerates(b, e.modes.Keys) && k in Collected(e, a)
    ensures k in Collected(e, b) && Collected(e, b)[k] == Collected(e, a)[k]
  {
    CollectedFrom(e, a, k);
    var n :| n in a && Stateful(e, n) && Key(e, n) == k;
    CollectedIsAll(e, a, n);
    CollectedIsAll(e, b, n);
  }

  lemma ResponseUnique(e: Engine, m: map<string, Status>, r: Option<map<string, Status>>, s: Option<map<string, Status>>)
    requires Responds(e, m, r) && Responds(e, m, s)
    ensures r == s
  {
    if m == map[] && exists n :: Stateless(e, n) {
      var n :| Least(e, n) && r == Some(map[Key(e, n) := NO_STATUS]);
      var x :| Least(e, x) && s == Some(map[Key(e, x) := NO_STATUS]);
      AtMostAntisymmetric(n, x);
    }
  }

  /** The names in an order that has n last. */
  lemma WithLast(names: seq<string>, n: string) returns (s: seq<string>)
    requires Distinct(names) && n in names
    ensures Distinct(s) && Members(s) == Members(names) && s != [] && s[|s| - 1] == n
  {
    var i :| 0 <= i < |names| && names[i] == n;
    s := names[..i] + names[i + 1..] + [n];
    assert names == names[..i] + [n] + names[i + 1..];
    forall j, k | 0 <= j < k < |s| ensures s[j] != s[k] {
      assert s[j] == names[if j < i then j else j + 1];
      assert k < |s| - 1 ==> s[k] == names[if k < i then k else k + 1];
    }
    forall x ensures x in s <==> x in names {}
  }

  /** The response is the same for every order in which Go may range over the replicas if and
      only if replicas that share an address agree. */
  lemma OrderIrrelevantIffNoClash(e: Engine, names: seq<string>)
    requires WellFormed(e) && Enumerates(names, e.modes.Keys)
    ensures NoClash(e) <==>
            forall a, b, r, s :: Outcome(e, a, r) && Outcome(e, b, s) ==> r == s
  {
    hide Responds, Collected;
    if NoClash(e) {
      forall a, b, r, s | Outcome(e, a, r) && Outcome(e, b, s) ensures r == s {
        CollectedCanonical(e, a, b);
        ResponseUnique(e, Collected(e, a), r, s);
      }
    } else {
      var n, x :| Clash(e, n, x);
      assert n in Members(names) && x in Members(names);
      var a := WithLast(names, n);
      var b := WithLast(names, x);
      assert Outcome(e, a, Some(Collected(e, a))) by { LastWins(e, a, n); }
      assert Outcome(e, b, Some(Collected(e, b))) by { LastWins(e, b, x); }
      LastWins(e, a, n);
      LastWins(e, b, x);
    }
  }

  ghost predicate Outcome(e: Engine, enumeration: seq<string>, r: Option<map<string, Status>>) {
    Enumerates(enumeration, e.modes.Keys) && Responds(e, Collected(e, enumeration), r)
  }

  lemma LastWins(e: Engine, enumeration: seq<string>, n: string)
    requires enumeration != [] && enumeration[|enumeration| - 1] == n && Stateful(e, n)
    ensures Key(e, n) in Collected(e, enumeration)
    ensures Collected(e, enumeration)[Key(e, n)] == e.answers[n].status.value
    ensures Responds(e, Collected(e, enumeration), Some(Collected(e, enumeration)))
  {
  }

  /** With distinct addresses of the RW replicas: every replica that reports a clone state with what
      it reports, or one empty entry for the least name that was reached, or an error. */
  lemma ResponseMeaning(e: Engine, enumeration: seq<string>, r: Option<map<string, Status>>)
    requires WellFormed(e) && Outcome(e, enumeration, r)
    requires forall n, x :: Answering(e, n) && Answering(e, x) && e.addresses[n] == e.addresses[x] ==> n == x
    ensures (exists n :: Stateful(e, n)) ==>
              && r.Some?
              && (forall k :: k in r.value <==> exists n :: Stateful(e, n) && Key(e, n) == k)
              && (forall n :: Stateful(e, n) && e.addresses[n] != "" ==>
                    "tcp://" + e.addresses[n] in r.value && Some(r.value["tcp://" + e.addresses[n]]) == e.answers[n].status)
              && (forall n :: Stateful(e, n) && e.addresses[n] == "" ==> "" in r.value && Some(r.value[""]) == e.answers[n].status)
    ensures !(exists n :: Stateful(e, n)) ==>
              if exists n :: Stateless(e, n) then
                exists n :: Least(e, n) && r == Some(map[Key(e, n) := Status(false, "", 0, "", "", "")])
              else r == None
  {
    var m := Collected(e, enumeration);
    forall k ensures k in m <==> exists n :: Stateful(e, n) && Key(e, n) == k {
      CollectedFrom(e, enumeration, k);
      assert forall n :: Stateful(e, n) ==> n in Members(enumeration);
    }
    assert forall n, x :: !Clash(e, n, x);
    forall n | Stateful(e, n) ensures Key(e, n) in m && Some(m[Key(e, n)]) == e.answers[n].status {
      CollectedIsAll(e, enumeration, n);
    }
  }
}
