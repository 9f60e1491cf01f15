/** Backup status of a v2 volume when the caller does not know which replica runs the backup. */
module BackupStatus {
  import opened Wrappers
  import opened Lists
  import opened NameOrder
  import opened Replicas

  datatype Error = NotFound(message: string) | OtherError(message: string)

  datatype Status = Status(backupUrl: string, error: string, progress: int, snapshotName: string, state: string,
                           replicaAddress: string)

  /** What one EngineBackupStatus call answers; the status may be nil. */
  datatype Reply = Answer(status: Option<Status>) | Refusal(error: Error)

  // ----- which replicas are asked -----

  predicate Eligible(modes: map<string, Mode>, addresses: map<string, string>, n: string) {
    n in modes && modes[n] == RW && n in addresses && addresses[n] != ""
  }

  function AddressesOf(names: seq<string>, addresses: map<string, string>): (r: seq<string>)
    requires forall n :: n in names ==> n in addresses
    ensures |r| == |names|
    ensures forall k :: 0 <= k < |r| ==> r[k] == addresses[names[k]]
  {
    seq(|names|, k requires 0 <= k < |names| => addresses[names[k]])
  }

  /** r lists the addresses of exactly the eligible replicas in the order of their names. */
  ghost predicate IsCandidateList(modes: map<string, Mode>, addresses: map<string, string>, r: seq<string>) {
    exists names :: ListsEligible(modes, addresses, names) && r == AddressesOf(names, addresses)
  }

  ghost predicate ListsEligible(modes: map<string, Mode>, addresses: map<string, string>, names: seq<string>)
    ensures ListsEligible(modes, addresses, names) ==> forall n :: n in names ==> n in addresses
  {
    assert forall n :: n in names ==> n in Members(names);
    Ascending(names) && forall n :: n in Members(names) <==> Eligible(modes, addresses, n)
  }

  /** Whatever order Go ranges over the map in, the candidates are the same. */
  lemma CandidatesCanonical(modes: map<string, Mode>, addresses: map<string, string>, r: seq<string>, s: seq<string>)
    requires IsCandidateList(modes, addresses, r) && IsCandidateList(modes, addresses, s)
    ensures r == s
  {
    var a :| ListsEligible(modes, addresses, a) && r == AddressesOf(a, addresses);
    var b :| ListsEligible(modes, addresses, b) && s == AddressesOf(b, addresses);
    assert Members(a) == Members(b);
    OneAscendingList(a, b);
  }

  /** findV2BackupReplicaAddresses, for any enumeration of the mode map. A name without an
      address reads as the empty string. */
  method FindReplicaAddresses(enumeration: seq<string>, modes: map<string, Mode>, addresses: map<string, string>)
    returns (r: seq<string>)
    requires Enumerates(enumeration, modes.Keys)
    ensures IsCandidateList(modes, addresses, r)
    ensures forall a :: a in r ==> a != ""
  {
    var names := Sort(enumeration);
    r := [];
    ghost var chosen: seq<string> := [];
    for i := 0 to |names|
      invariant forall n :: n in chosen ==> n in names[..i] && Eligible(modes, addresses, n)
      invariant forall n :: n in names[..i] && Eligible(modes, addresses, n) ==> n in chosen
      invariant Ascending(chosen) && r == AddressesOf(chosen, addresses)
    {
      var n := names[i];
      assert n in Members(names);
      assert names[..i + 1] == names[..i] + [n];
      assert forall c :: c in names[..i] ==> Below(c, n);
      if modes[n] != RW { continue; }
      var address := if n in addresses then addresses[n] else "";
      if address != "" {
        r := r + [address];
        chosen := chosen + [n];
      }
    }
    assert names[..|names|] == names;
    forall n ensures n in Members(chosen) <==> Eligible(modes, addresses, n) {
      assert n in modes ==> n in Members(names);
    }
    assert ListsEligible(modes, addresses, chosen);
    assert forall k :: 0 <= k < |r| ==> chosen[k] in chosen;
  }

  // ----- asking them -----

  predicate Usable(r: Reply) { r.Answer? && r.status.Some? }

  /** An error that is worth reporting; a nil status counts as one. */
  predicate Fails(r: Reply) { (r.Answer? && r.status.None?) || (r.Refusal? && r.error.OtherError?) }

  function ErrorOf(r: Reply, address: string): Error
    requires !Usable(r)
  {
    if r.Answer? then OtherError("received an empty backup status from replica " + address) else r.error
  }

  datatype Probe = Found(status: Status, address: string) | Missed(error: Option<Error>)

  predicate FirstSuch(replies: seq<Reply>, k: int, which: Reply -> bool) {
    0 <= k < |replies| && which(replies[k]) && forall j :: 0 <= j < k ==> !which(replies[j])
  }

  /** The first usable status whatever failed before it; failing that the first error other than
      NotFound; failing that the last NotFound; and no error where nobody was asked. */
  ghost predicate RightProbe(addresses: seq<string>, replies: seq<Reply>, p: Probe)
    requires |addresses| == |replies|
  {
    if exists k :: FirstSuch(replies, k, Usable) then
      exists k :: FirstSuch(replies, k, Usable) && p == Found(replies[k].status.value, addresses[k])
    else if exists k :: FirstSuch(replies, k, Fails) then
      exists k :: FirstSuch(replies, k, Fails) && !Usable(replies[k]) && p == Missed(Some(ErrorOf(replies[k], addresses[k])))
    else if replies != [] then
      replies[|replies| - 1].Refusal? && p == Missed(Some(replies[|replies| - 1].error))
    else p == Missed(None)
  }

  /** getV2BackupStatusFromReplicas; replies[k] is what the k-th call would answer. */
  method ProbeReplicas(addresses: seq<string>, replies: seq<Reply>) returns (p: Probe)
    requires |addresses| == |replies|
    ensures RightProbe(addresses, replies, p)
    ensures p.Missed? <==> forall k :: 0 <= k < |replies| ==> !Usable(replies[k])
    ensures p.Found? ==> p.address in addresses
  {
    var firstErr, notFoundErr: Option<Error> := None, None;
    for i := 0 to |replies|
      invariant forall k :: 0 <= k < i ==> !Usable(replies[k])
      invariant firstErr.None? ==> forall k :: 0 <= k < i ==> !Fails(replies[k])
      invariant firstErr.Some? ==>
                  exists k :: 0 <= k < i && FirstSuch(replies, k, Fails) && !Usable(replies[k])
                              && firstErr.value == ErrorOf(replies[k], addresses[k])
      invariant firstErr.None? ==> notFoundErr == if i == 0 then None else Some(ErrorOf(replies[i - 1], addresses[i - 1]))
    {
      var r := replies[i];
      if Usable(r) {
        assert FirstSuch(replies, i, Usable);
        return Found(r.status.value, addresses[i]);
      }
      var err := ErrorOf(r, addresses[i]);
      if err.NotFound? {
        notFoundErr := Some(err);
      } else if firstErr.None? {
        assert FirstSuch(replies, i, Fails);
        firstErr := Some(err);
      }
    }
    if firstErr.Some? { return Missed(firstErr); }
    return Missed(notFoundErr);
  }

  // ----- the whole call -----

  datatype Failure =
    | NoClient | NoEngine | ProbeError(error: Error) | NoReplica
    | DirectError(error: Error) | EmptyStatus(address: string)

  /** What the engine and its replicas answer: the client, EngineGet, the probes, the direct call. */
  datatype Backend = Backend(reachable: bool, engine: Option<(map<string, Mode>, map<string, string>)>,
                             enumeration: seq<string>, ask: nat -> Reply, direct: Reply)

  function Replies(b: Backend, n: nat): (r: seq<Reply>)
    ensures |r| == n
  {
    seq(n, k requires 0 <= k < n => b.ask(k))
  }

  predicate WellFormed(b: Backend) { b.engine.Some? ==> Enumerates(b.enumeration, b.engine.value.0.Keys) }

  /** p is what probing the candidates, in the order of their names, comes to. */
  ghost predicate RightRecovery(b: Backend, candidates: seq<string>, p: Probe)
    requires b.engine.Some?
  {
    && IsCandidateList(b.engine.value.0, b.engine.value.1, candidates)
    && RightProbe(candidates, Replies(b, |candidates|), p)
  }

  /** The response has the status's own fields, each in its place; its address is the status's where
      that is not empty, else the one that was asked. */
  predicate Copies(r: Status, s: Status, asked: string) {
    && r.backupUrl == s.backupUrl && r.error == s.error && r.progress == s.progress
    && r.snapshotName == s.snapshotName && r.state == s.state
    && r.replicaAddress == if s.replicaAddress != "" then s.replicaAddress else asked
  }

  /** Candidate k answers with a status. */
  predicate Answers(b: Backend, k: nat) { b.ask(k).Answer? && b.ask(k).status.Some? }

  /** Candidate k fails otherwise than by not knowing the backup: an empty answer, or another error. */
  predicate Breaks(b: Backend, k: nat) {
    (b.ask(k).Answer? && b.ask(k).status.None?) || (b.ask(k).Refusal? && !b.ask(k).error.NotFound?)
  }

  /** Candidate k is the first to answer with a status. */
  ghost predicate FirstAnswer(b: Backend, n: nat, k: nat) { k < n && Answers(b, k) && forall j: nat :: j < k ==> !Answers(b, j) }

  /** Candidate k is the first to break. */
  ghost predicate FirstBreak(b: Backend, n: nat, k: nat) { k < n && Breaks(b, k) && forall j: nat :: j < k ==> !Breaks(b, j) }

  /** The response is the first status that a candidate answers; without one it is the first failure that
      is worth reporting; without that it says that there is no replica. */
  ghost predicate RightAnswer(b: Backend, candidates: seq<string>, r: Result<Status, Failure>) {
    var n := |candidates|;
    if exists k: nat :: k < n && Answers(b, k) then
      r.Ok? && exists k: nat :: FirstAnswer(b, n, k) && Copies(r.value, b.ask(k).status.value, candidates[k])
    else if exists k: nat :: k < n && Breaks(b, k) then
      r.Err? && r.error.ProbeError?
      && exists k: nat :: FirstBreak(b, n, k) && (b.ask(k).Refusal? ==> r.error.error == b.ask(k).error)
    else r == Err(NoReplica)
  }

  lemma {:induction false} FirstThereIs(replies: seq<Reply>, k: nat, which: Reply -> bool) returns (i: nat)
    requires k < |replies| && which(replies[k])
    ensures FirstSuch(replies, i, which)
  {
    i := k;
    if j :| 0 <= j < k && which(replies[j]) { i := FirstThereIs(replies, j, which); }
  }

  lemma RecoveryAnswers(b: Backend, candidates: seq<string>, p: Probe)
    requires b.engine.Some? && RightRecovery(b, candidates, p)
    ensures RightAnswer(b, candidates, Recovered(p))
  {
    var n, replies := |candidates|, Replies(b, |candidates|);
    if k: nat :| k < n && Answers(b, k) {
      var i := FirstThereIs(replies, k, Usable);
      FoundOne(b, candidates, p);
    } else if k: nat :| k < n && Breaks(b, k) {
      var i := FirstThereIs(replies, k, Fails);
      Broken(b, candidates, p);
    } else {
      Nobody(b, candidates, p);
    }
  }

  lemma Nobody(b: Backend, candidates: seq<string>, p: Probe)
    requires RightProbe(candidates, Replies(b, |candidates|), p)
    requires forall k: nat :: k < |candidates| ==> !Answers(b, k) && !Breaks(b, k)
    ensures RightAnswer(b, candidates, Recovered(p))
  {
    var n, replies := |candidates|, Replies(b, |candidates|);
    assert forall j: nat :: j < n ==> (Usable(replies[j]) <==> Answers(b, j)) && (Fails(replies[j]) <==> Breaks(b, j));
  }

  lemma FoundOne(b: Backend, candidates: seq<string>, p: Probe)
    requires RightProbe(candidates, Replies(b, |candidates|), p) && exists k :: FirstSuch(Replies(b, |candidates|), k, Usable)
    ensures RightAnswer(b, candidates, Recovered(p))
  {
    var n, replies := |candidates|, Replies(b, |candidates|);
    var k :| FirstSuch(replies, k, Usable) && p == Found(replies[k].status.value, candidates[k]);
    assert forall j: nat :: j < n ==> (Usable(replies[j]) <==> Answers(b, j));
    assert FirstAnswer(b, n, k);
  }

  lemma Broken(b: Backend, candidates: seq<string>, p: Probe)
    requires RightProbe(candidates, Replies(b, |candidates|), p)
    requires !exists k: nat :: k < |candidates| && Answers(b, k)
    requires exists k :: FirstSuch(Replies(b, |candidates|), k, Fails)
    ensures RightAnswer(b, candidates, Recovered(p))
  {
    var n, replies := |candidates|, Replies(b, |candidates|);
    assert forall j: nat :: j < n ==> (Usable(replies[j]) <==> Answers(b, j)) && (Fails(replies[j]) <==> Breaks(b, j));
    var k :| FirstSuch(replies, k, Fails) && p == Missed(Some(ErrorOf(replies[k], candidates[k])));
    assert FirstBreak(b, n, k);
  }

  /** V2 SnapshotBackupStatus. The address that comes back is never empty: the one in the status
      if there is one, else the one that was asked. */
  method SnapshotBackupStatus(requested: string, b: Backend) returns (r: Result<Status, Failure>)
    requires WellFormed(b)
    ensures r.Ok? ==> r.value.replicaAddress != ""
    ensures r == Err(NoClient) <==> !b.reachable
    ensures r == Err(NoEngine) <==> b.reachable && requested == "" && b.engine.None?
    ensures b.reachable && requested != "" ==>
              (match b.direct
               case Refusal(e) => r == Err(DirectError(e))
               case Answer(s) => if s.None? then r == Err(EmptyStatus(requested)) else r.Ok? && Copies(r.value, s.value, requested))
    ensures b.reachable && requested == "" && b.engine.Some? ==>
              exists candidates, p :: RightRecovery(b, candidates, p) && r == Recovered(p) && RightAnswer(b, candidates, r)
  {
    hide RightAnswer;
    if !b.reachable { return Err(NoClient); }
    if requested == "" {
      if b.engine.None? { return Err(NoEngine); }
      var addresses := FindReplicaAddresses(b.enumeration, b.engine.value.0, b.engine.value.1);
      var p := ProbeReplicas(addresses, Replies(b, |addresses|));
      assert RightRecovery(b, addresses, p);
      RecoveryAnswers(b, addresses, p);
      if p.Missed? {
        if p.error.Some? && p.error.value.OtherError? { return Err(ProbeError(p.error.value)); }
        return Err(NoReplica);
      }
      return Ok(Addressed(p.status, p.address));
    }
    match b.direct
    case Refusal(e) => return Err(DirectError(e));
    case Answer(s) =>
      if s.None? { return Err(EmptyStatus(requested)); }
      return Ok(Addressed(s.value, requested));
  }

  function Addressed(s: Status, asked: string): Status { if s.replicaAddress != "" then s else s.(replicaAddress := asked) }

  function Recovered(p: Probe): Result<Status, Failure> {
    match p
    case Found(s, a) => Ok(Addressed(s, a))
    case Missed(e) => if e.Some? && e.value.OtherError? then Err(ProbeError(e.value)) else Err(NoReplica)
  }

  /** One way to probe: the outcome is a function of the replies. */
  lemma ProbeUnique(addresses: seq<string>, replies: seq<Reply>, p: Probe, q: Probe)
    requires |addresses| == |replies| && RightProbe(addresses, replies, p) && RightProbe(addresses, replies, q)
    ensures p == q
  {
    if exists k :: FirstSuch(replies, k, Usable) {
      var i :| FirstSuch(replies, i, Usable) && p == Found(replies[i].status.value, addresses[i]);
      var j :| FirstSuch(replies, j, Usable) && q == Found(replies[j].status.value, addresses[j]);
      assert i == j;
    } else if exists k :: FirstSuch(replies, k, Fails) {
      var i :| FirstSuch(replies, i, Fails) && p == Missed(Some(ErrorOf(replies[i], addresses[i])));
      var j :| FirstSuch(replies, j, Fails) && q == Missed(Some(ErrorOf(replies[j], addresses[j])));
      assert i == j;
    }
  }

  /** The recovery does not depend on the order in which Go ranges over the replica map. */
  lemma RecoveryCanonical(b: Backend, b': Backend, c: seq<string>, c': seq<string>, p: Probe, p': Probe)
    requires b.engine.Some? && b' == b.(enumeration := b'.enumeration)
    requires RightRecovery(b, c, p) && RightRecovery(b', c', p')
    ensures c == c' && p == p' && Recovered(p) == Recovered(p')
  {
    hide RightProbe;
    CandidatesCanonical(b.engine.value.0, b.engine.value.1, c, c');
    ProbeUnique(c, Replies(b, |c|), p, p');
  }
}
