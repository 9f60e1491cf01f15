/** What ProcessReplace decides: over any run, when it takes the old process's place and when it
    backs out. */
module ProtocolReplace {
  import opened Wrappers
  import opened PortLedger
  import opened Protocol
  import opened ProtocolInv
  import opened ProtocolSteps
  import opened ProtocolPreserve
  import opened ProtocolTheorems
  import opened ProtocolActs
  import opened ProtocolDelete
  import opened ProtocolCauses

  lemma LeadsToReplace(w: World, t: Tid, c: Choice, b: Act)
    requires t in w.acts && !w.acts[t].Notify? && !w.acts[t].DeleteFind? && w.acts[t].u in w.procs
    requires Leads(w, t, c) == Some(b)
    ensures b.ReplaceCompare? ==> w.acts[t] == ReplaceInit(b.u) && c.ok && Holds(w.table, w.procs[b.u].name, b.o)
    ensures b.ReplaceStart? ==>
              w.acts[t] == ReplaceCompare(b.u, b.o) && (b.o in w.procs ==> w.procs[b.o].binary != w.procs[b.u].binary)
    ensures b.ReplacePoll? ==>
              if b.i == 0 then w.acts[t] == ReplaceStart(b.u, b.o) && c.ok
              else b.i <= 30 && w.acts[t] == ReplacePoll(b.u, b.o, b.i - 1) && w.procs[b.u].state.Starting?
    ensures b.StopClaim? && b.after.ToCommit? ==>
              var a := w.acts[t];
              a.ReplacePoll? && a.u == b.after.next && a.o == b.u && (w.procs[a.u].state.Running? || a.i >= 30)
  {
    hide Start, StopStep;
    StartLeads(w, t, c);
    if w.acts[t].StopClaim? { ClaimLeads(w, t, c); }
  }

  lemma LeadsToCommit(w: World, t: Tid, c: Choice, b: Act)
    requires t in w.acts && !w.acts[t].Notify? && !w.acts[t].DeleteFind? && w.acts[t].u in w.procs
    requires Leads(w, t, c) == Some(b)
    ensures InStop(b) && !b.StopClaim? ==> InStop(w.acts[t]) && w.acts[t].u == b.u && w.acts[t].after == b.after
    ensures b.ReplaceCommit? ==> InStop(w.acts[t]) && w.acts[t].u == b.o && w.acts[t].after == ToCommit(b.u)
  {
    hide Start;
    StartLeads(w, t, c);
  }

  lemma NoReplaceEntry(a: Act, u: Uuid, o: Uuid)
    requires InReplace(a, u, o)
    ensures !Entry(a) && !(a.StopClaim? && a.after.ToUnregister?)
  {
  }

  // ----- the way to the commit -----

  /** The call was admitted in step i, while the table held o under u's name. */
  ghost predicate Admitted(ws: seq<World>, ls: seq<Label>, i: nat, t: Tid, u: Uuid, o: Uuid)
    requires |ls| < |ws|
  {
    Turn(ws, ls, i, t) && ws[i].acts[t] == ReplaceInit(u) && ls[i].c.ok && Holds(ws[i].table, ws[i].procs[u].name, o)
  }

  /** In step i it found that o runs another binary. */
  ghost predicate Compared(ws: seq<World>, ls: seq<Label>, i: nat, t: Tid, u: Uuid, o: Uuid)
    requires |ls| < |ws|
  {
    && Turn(ws, ls, i, t) && ws[i].acts[t] == ReplaceCompare(u, o)
    && o in ws[i].procs && ws[i].procs[o].binary != ws[i].procs[u].binary
  }

  /** In step i its own process was started, and the start did not fail. */
  ghost predicate StartedOK(ws: seq<World>, ls: seq<Label>, i: nat, t: Tid, u: Uuid, o: Uuid)
    requires |ls| < |ws|
  {
    Turn(ws, ls, i, t) && ws[i].acts[t] == ReplaceStart(u, o) && ls[i].c.ok
  }

  /** Before step k its poll y found its own process Starting. */
  ghost predicate FoundStarting(ws: seq<World>, ls: seq<Label>, k: nat, t: Tid, u: Uuid, o: Uuid, y: nat)
    requires |ls| < |ws|
  {
    exists j :: 0 <= j < k && Turn(ws, ls, j, t) && ws[j].acts[t] == ReplacePoll(u, o, y) && ws[j].procs[u].state.Starting?
  }

  /** In step i it polled its own process and went on to stop the old one. */
  ghost predicate Decided(ws: seq<World>, ls: seq<Label>, i: nat, t: Tid, u: Uuid, o: Uuid)
    requires |ls| < |ws|
  {
    && Turn(ws, ls, i, t) && ws[i].acts[t].ReplacePoll? && ws[i].acts[t].u == u && ws[i].acts[t].o == o
    && (ws[i].procs[u].state.Running?
        || (ws[i].acts[t].i == 30 && forall y: nat :: y < 30 ==> FoundStarting(ws, ls, i, t, u, o, y)))
  }

  /** In step i it went to stop the old process. */
  ghost predicate StopsOld(ws: seq<World>, ls: seq<Label>, i: nat, t: Tid, u: Uuid, o: Uuid)
    requires |ls| < |ws|
  {
    Turn(ws, ls, i, t) && ws[i].acts[t].StopClaim? && ws[i].acts[t].u == o && ws[i].acts[t].after == ToCommit(u)
  }

  lemma ToCompare(ws: seq<World>, ls: seq<Label>, k: nat, t: Tid, u: Uuid, o: Uuid) returns (i: nat)
    requires IsRun(ws, ls) && k <= |ls| < |ws| && t in ws[k].acts && ws[k].acts[t] == ReplaceCompare(u, o)
    ensures i < k && Admitted(ws, ls, i, t, u, o)
  {
    hide IsRun, Leads;
    i := StepBefore(ws, ls, k, t);
    LeadsToReplace(ws[i], t, ls[i].c, ws[k].acts[t]);
  }

  lemma ToStart(ws: seq<World>, ls: seq<Label>, k: nat, t: Tid, u: Uuid, o: Uuid) returns (i: nat, j: nat)
    requires IsRun(ws, ls) && k <= |ls| < |ws| && t in ws[k].acts && ws[k].acts[t] == ReplaceStart(u, o)
    ensures i < j < k && Admitted(ws, ls, i, t, u, o) && Compared(ws, ls, j, t, u, o)
  {
    hide IsRun, Leads, Admitted, Inv;
    j := StepBefore(ws, ls, k, t);
    LeadsToReplace(ws[j], t, ls[j].c, ws[k].acts[t]);
    i := ToCompare(ws, ls, j, t, u, o);
    RunInv(ws, ls, j);
    CapturedIs(ws[j], t);
  }

  lemma CapturedIs(w: World, t: Tid)
    requires Inv(w) && t in w.acts && w.acts[t].ReplaceCompare?
    ensures w.acts[t].o in w.procs
  {
    Facts(w, t, w.acts[t].u);
  }

  lemma {:induction false} ToPoll(ws: seq<World>, ls: seq<Label>, k: nat, t: Tid, u: Uuid, o: Uuid, n: nat)
    returns (i: nat, j: nat, m: nat)
    requires IsRun(ws, ls) && k <= |ls| < |ws| && t in ws[k].acts && ws[k].acts[t] == ReplacePoll(u, o, n)
    ensures i < j < m < k && Admitted(ws, ls, i, t, u, o) && Compared(ws, ls, j, t, u, o) && StartedOK(ws, ls, m, t, u, o)
    ensures n <= 30 && forall y: nat :: y < n ==> FoundStarting(ws, ls, k, t, u, o, y)
  {
    hide IsRun, Leads, Admitted, Compared;
    var s := StepBefore(ws, ls, k, t);
    LeadsToReplace(ws[s], t, ls[s].c, ws[k].acts[t]);
    if n == 0 {
      m := s;
      i, j := ToStart(ws, ls, m, t, u, o);
    } else {
      i, j, m := ToPoll(ws, ls, s, t, u, o, n - 1);
      forall y: nat | y < n ensures FoundStarting(ws, ls, k, t, u, o, y) {
        if y < n - 1 { assert FoundStarting(ws, ls, s, t, u, o, y); }
      }
    }
  }

  lemma {:induction false} ToStop(ws: seq<World>, ls: seq<Label>, k: nat, t: Tid, u: Uuid, o: Uuid)
    returns (i: nat, j: nat, m: nat, d: nat)
    requires IsRun(ws, ls) && k <= |ls| < |ws| && t in ws[k].acts
    requires InStop(ws[k].acts[t]) && ws[k].acts[t].u == o && ws[k].acts[t].after == ToCommit(u)
    ensures i < j < m < d < k && Admitted(ws, ls, i, t, u, o) && Compared(ws, ls, j, t, u, o) && StartedOK(ws, ls, m, t, u, o)
    ensures Decided(ws, ls, d, t, u, o)
    ensures !ws[k].acts[t].StopClaim? ==> exists s :: d < s < k && StopsOld(ws, ls, s, t, u, o)
  {
    hide IsRun, Leads, Admitted, Compared, StartedOK, FoundStarting;
    NoReplaceEntry(ws[k].acts[t], u, o);
    var s := StepBefore(ws, ls, k, t);
    if ws[k].acts[t].StopClaim? {
      LeadsToReplace(ws[s], t, ls[s].c, ws[k].acts[t]);
      d := s;
      i, j, m := ToPoll(ws, ls, d, t, u, o, ws[d].acts[t].i);
    } else {
      LeadsToCommit(ws[s], t, ls[s].c, ws[k].acts[t]);
      i, j, m, d := ToStop(ws, ls, s, t, u, o);
      assert ws[s].acts[t].StopClaim? ==> StopsOld(ws, ls, s, t, u, o);
    }
  }

  /** Before a replace commits u in o's place, the same call was admitted while the table held o, found
      that o runs another binary, started u without failure, and saw u Running, or found it Starting
      in each of 30 polls; and only then went to stop o. */
  lemma CommitWasEarned(ws: seq<World>, ls: seq<Label>, k: nat, t: Tid, u: Uuid, o: Uuid)
    returns (i: nat, j: nat, m: nat, d: nat, s: nat)
    requires IsRun(ws, ls) && k <= |ls| < |ws| && t in ws[k].acts && ws[k].acts[t] == ReplaceCommit(u, o)
    ensures i < j < m < d < s < k && Admitted(ws, ls, i, t, u, o) && Compared(ws, ls, j, t, u, o) && StartedOK(ws, ls, m, t, u, o)
    ensures Decided(ws, ls, d, t, u, o) && StopsOld(ws, ls, s, t, u, o)
  {
    hide IsRun, Leads, Admitted, Compared, StartedOK, Decided;
    var last := StepBefore(ws, ls, k, t);
    LeadsToCommit(ws[last], t, ls[last].c, ws[k].acts[t]);
    i, j, m, d := ToStop(ws, ls, last, t, u, o);
    if ws[last].acts[t].StopClaim? {
      s := last;
    } else {
      s :| d < s < last && StopsOld(ws, ls, s, t, u, o);
    }
  }

  /** So it is whenever an entry passes from one process to another. */
  lemma ReplacementWasEarned(ws: seq<World>, ls: seq<Label>, k: nat, n: Name)
    returns (t: Tid, i: nat, j: nat, m: nat, d: nat, s: nat)
    requires IsRun(ws, ls) && k < |ls| < |ws|
    requires n in ws[k].table && n in ws[k + 1].table && ws[k + 1].table[n] != ws[k].table[n]
    ensures var u, o := ws[k + 1].table[n], ws[k].table[n];
            && i < j < m < d < s < k && Admitted(ws, ls, i, t, u, o) && Compared(ws, ls, j, t, u, o)
            && StartedOK(ws, ls, m, t, u, o) && Decided(ws, ls, d, t, u, o) && StopsOld(ws, ls, s, t, u, o)
  {
    hide IsRun, Next, Enabled, Inv, ProcStep, Admitted, Compared, StartedOK, Decided, StopsOld;
    RunStep(ws, ls, k);
    TableWrites(ws[k], ls[k], n);
    t := ls[k].t;
    i, j, m, d, s := CommitWasEarned(ws, ls, k, t, ws[k + 1].table[n], ws[k].table[n]);
  }

  // ----- backing out -----

  /** The step at which a replace learns that it will not go through: the old process runs the same
      binary, its own fails to start or is found Stopping, Stopped or Error in one of 30 polls, or
      another process has the entry by now. */
  predicate Fails(w: World, a: Act, p: Proc, c: Choice) {
    || (a.ReplaceCompare? && a.o in w.procs && w.procs[a.o].binary == p.binary)
    || (a.ReplaceStart? && !c.ok)
    || (a.ReplacePoll? && a.i < 30 && (p.state.Stopping? || p.state.Stopped? || p.state.Error?))
    || (a.ReplaceCommit? && p.name in w.table && w.table[p.name] != a.o)
  }

  /** The call cleans its own process up. */
  predicate Backs(a: Act, u: Uuid) {
    && (a.ReplaceDropLog? || a.ReplaceDropPorts? || a.ReplaceRelease? || (InStop(a) && a.after.ToRelease?))
    && a.u == u
  }

  lemma FailLeads(w: World, t: Tid, c: Choice)
    requires t in w.acts && !w.acts[t].Notify? && !w.acts[t].DeleteFind? && w.acts[t].u in w.procs
    requires Fails(w, w.acts[t], w.procs[w.acts[t].u], c)
    ensures Leads(w, t, c).Some? && Backs(Leads(w, t, c).value, w.acts[t].u)
  {
    hide StopStep;
  }

  lemma BacksLeads(w: World, t: Tid, c: Choice, u: Uuid)
    requires t in w.acts && u in w.procs && Backs(w.acts[t], u)
    ensures Leads(w, t, c).Some? ==> Backs(Leads(w, t, c).value, u)
    ensures Leads(w, t, c).None? ==> Touches(w.acts[t]) && (w.acts[t].ReplaceDropPorts? || w.acts[t].ReplaceRelease?)
  {
    hide Start;
  }

  /** Either the call is still cleaning up, or it is over and the process has left. */
  ghost predicate BackedOut(w: World, t: Tid, u: Uuid) {
    u in w.procs && if t in w.acts then Backs(w.acts[t], u) else w.procs[u].stage.Gone?
  }

  lemma BackOutStep(w: World, l: Label, t: Tid, u: Uuid)
    requires Inv(w) && Enabled(w, l) && BackedOut(w, t, u) && t < w.nextTid
    ensures BackedOut(Next(w, l), t, u)
  {
    hide Inv, Enabled, Leads, Backs, Later;
    StepLater(w, l, u);
    LaterGone(w.procs[u], Next(w, l).procs[u]);
    hide Next;
    if t !in w.acts {
      Births(w, l, t);
    } else if l.Move? && l.t == t {
      assert l == Move(t, l.c);
      BacksWhere(w.acts[t], u);
      MoveLeads(w, t, l.c);
      BacksLeads(w, t, l.c, u);
      if Leads(w, t, l.c).None? { DroppedNow(w, t, l.c, u); }
    } else {
      StaysPut(w, l, t);
    }
  }

  lemma BacksWhere(a: Act, u: Uuid)
    requires Backs(a, u)
    ensures !a.Notify? && !a.DeleteFind? && a.u == u
  {
  }

  lemma LaterGone(p: Proc, q: Proc)
    requires Later(p, q)
    ensures p.stage.Gone? ==> q.stage.Gone?
  {
  }

  lemma DroppedNow(w: World, t: Tid, c: Choice, u: Uuid)
    requires t in w.acts && u in w.procs && (w.acts[t] == ReplaceDropPorts(u) || w.acts[t] == ReplaceRelease(u))
    requires Enabled(w, Move(t, c))
    ensures u in Next(w, Move(t, c)).procs && Next(w, Move(t, c)).procs[u].stage.Gone?
  {
    hide ProcStep, Drop;
    TouchStep(w, t, w.acts[t], w.procs[u], c);
    Dropping(w, u);
  }

  /** At a failing step the process is still the call's own. */
  lemma FailsInHand(w: World, t: Tid, c: Choice)
    requires Inv(w) && t in w.acts && !w.acts[t].Notify? && !w.acts[t].DeleteFind? && w.acts[t].u in w.procs
    requires Fails(w, w.acts[t], w.procs[w.acts[t].u], c)
    ensures w.procs[w.acts[t].u].stage.InFlight?
  {
    Facts(w, t, w.acts[t].u);
  }

  lemma {:induction false} BacksOutAlong(ws: seq<World>, ls: seq<Label>, j: nat, k: nat, t: Tid, u: Uuid)
    requires IsRun(ws, ls) && j < k <= |ls| < |ws| && Turn(ws, ls, j, t) && ws[j].acts[t].u == u
    requires Fails(ws[j], ws[j].acts[t], ws[j].procs[u], ls[j].c)
    ensures BackedOut(ws[k], t, u)
    decreases k
  {
    hide Inv, Next, Enabled, IsRun, Fails, BackedOut;
    RunInv(ws, ls, k - 1);
    RunStep(ws, ls, k - 1);
    if k == j + 1 {
      BacksOutFirst(ws[j], t, ls[j].c);
      assert ls[j] == Move(t, ls[j].c);
    } else {
      BacksOutAlong(ws, ls, j, k - 1, t, u);
      StillNumbered(ws, ls, j, k - 1, t);
      BackOutStep(ws[k - 1], ls[k - 1], t, u);
    }
  }

  lemma BacksOutFirst(w: World, t: Tid, c: Choice)
    requires Inv(w) && t in w.acts && !w.acts[t].Notify? && !w.acts[t].DeleteFind? && w.acts[t].u in w.procs
    requires Fails(w, w.acts[t], w.procs[w.acts[t].u], c) && Enabled(w, Move(t, c))
    ensures BackedOut(Next(w, Move(t, c)), t, w.acts[t].u)
  {
    hide Inv, Next, Enabled, Leads, Later, Fails;
    MoveLeads(w, t, c);
    FailLeads(w, t, c);
    StepLater(w, Move(t, c), w.acts[t].u);
  }

  lemma {:induction false} StillNumbered(ws: seq<World>, ls: seq<Label>, j: nat, k: nat, t: Tid)
    requires IsRun(ws, ls) && j <= k <= |ls| < |ws| && t in ws[j].acts
    ensures t < ws[k].nextTid
    decreases k
  {
    hide Inv, Next, Enabled, IsRun;
    if k == j {
      RunInv(ws, ls, j);
      Numbered(ws[j], t);
    } else {
      StillNumbered(ws, ls, j, k - 1, t);
      RunInv(ws, ls, k - 1);
      RunStep(ws, ls, k - 1);
      KeepsCounting(ws[k - 1], ls[k - 1]);
    }
  }

  /** A replacement that has not been published was never listed before either. */
  lemma NotListedBefore(ws: seq<World>, ls: seq<Label>, k: nat, j: nat, u: Uuid)
    requires IsRun(ws, ls) && k <= j <= |ls| < |ws| && u in ws[j].procs && ws[j].procs[u].stage.InFlight?
    ensures !Listed(ws[k], u)
  {
    hide IsRun, Inv;
    RunInv(ws, ls, k);
    if u in ws[k].procs {
      StageMeaning(ws[k], u);
      RunLater(ws, ls, k, j, u);
    }
  }

  lemma NotListedAfter(w: World, t: Tid, u: Uuid)
    requires Inv(w) && BackedOut(w, t, u)
    ensures !Listed(w, u)
  {
    StageMeaning(w, u);
    if t in w.acts { Facts(w, t, u); }
  }

  /** A replace that fails is never listed, at any moment of the run; from then on it stops nobody but
      its own process and leaves the table alone; and when it has ended its process is gone and
      its ports were given back exactly once. */
  lemma FailedReplaceLeaves(ws: seq<World>, ls: seq<Label>, j: nat, k: nat, t: Tid)
    requires IsRun(ws, ls) && j < |ls| < |ws| && k <= |ls| && Turn(ws, ls, j, t)
    requires Fails(ws[j], ws[j].acts[t], ws[j].procs[ws[j].acts[t].u], ls[j].c)
    ensures !Listed(ws[k], ws[j].acts[t].u)
    ensures j < k && Turn(ws, ls, k, t) ==>
              ws[k + 1].table == ws[k].table && (InStop(ws[k].acts[t]) ==> ws[k].acts[t].u == ws[j].acts[t].u)
    ensures j < k && t !in ws[k].acts ==>
              var u := ws[j].acts[t].u;
              u in ws[k].procs && ws[k].procs[u].stage.Gone? && Releases(ws, ls, u, k) == 1
  {
    hide Inv, Next, Enabled, IsRun, Fails, Listed, Backs, GivesBack;
    var u := ws[j].acts[t].u;
    RunInv(ws, ls, j);
    FailsInHand(ws[j], t, ls[j].c);
    if k <= j {
      NotListedBefore(ws, ls, k, j, u);
    } else {
      BacksOutAlong(ws, ls, j, k, t, u);
      RunInv(ws, ls, k);
      NotListedAfter(ws[k], t, u);
      if Turn(ws, ls, k, t) {
        RunStep(ws, ls, k);
        BacksOnly(ws[k], ls[k], t, u);
      }
      if t !in ws[k].acts {
        GivenBackBetween(ws, ls, u, j, k);
        ReleasedOnce(ws, ls, u, k);
      }
    }
  }

  lemma BacksOnly(w: World, l: Label, t: Tid, u: Uuid)
    requires Enabled(w, l) && l.Move? && l.t == t && t in w.acts && Backs(w.acts[t], u)
    ensures Next(w, l).table == w.table && (InStop(w.acts[t]) ==> w.acts[t].u == u)
  {
    hide Next, Enabled;
    if n :| !(n in Next(w, l).table <==> n in w.table) || (n in w.table && Next(w, l).table[n] != w.table[n]) {
      TableWrites(w, l, n);
    }
  }

  // ----- before the verdict -----

  /** The points of the call before it turns to the old process. */
  predicate Early(a: Act, u: Uuid) {
    (a.ReplaceInit? || a.ReplaceCompare? || a.ReplaceStart? || a.ReplacePoll?) && a.u == u
  }

  lemma EarlyLeads(w: World, t: Tid, c: Choice, u: Uuid, b: Act)
    requires t in w.acts && !w.acts[t].Notify? && !w.acts[t].DeleteFind? && w.acts[t].u in w.procs
    requires Leads(w, t, c) == Some(b) && Early(b, u)
    ensures Early(w.acts[t], u)
  {
    hide Leads;
    LeadsToReplace(w, t, c, b);
    NoneLeadsToInit(w, t, c);
  }

  lemma NoneLeadsToInit(w: World, t: Tid, c: Choice)
    requires t in w.acts && !w.acts[t].Notify? && !w.acts[t].DeleteFind? && w.acts[t].u in w.procs
    ensures Leads(w, t, c).Some? ==> !Leads(w, t, c).value.ReplaceInit?
  {
    hide Start;
    StartLeads(w, t, c);
  }

  lemma {:induction false} EarlyBefore(ws: seq<World>, ls: seq<Label>, k: nat, j: nat, t: Tid, u: Uuid)
    requires IsRun(ws, ls) && k <= j <= |ls| < |ws| && t in ws[j].acts && Early(ws[j].acts[t], u) && t in ws[k].acts
    ensures Early(ws[k].acts[t], u)
    decreases j
  {
    hide Inv, Next, Enabled, IsRun, Leads, Entry, Early;
    if k < j {
      SomeStep(ws, ls, j, t);
      StillNumbered(ws, ls, k, j - 1, t);
      var w, l := ws[j - 1], ls[j - 1];
      CameFrom(w, l, t);
      if t !in w.acts {
        Births(w, l, t);
      } else {
        EarlyIs(ws[j].acts[t], u);
        if l.Move? && l.t == t { EarlyLeads(w, t, l.c, u, ws[j].acts[t]); }
        EarlyBefore(ws, ls, k, j - 1, t, u);
      }
    }
  }

  lemma EarlyIs(a: Act, u: Uuid)
    requires Early(a, u)
    ensures !a.StopClaim? && !a.ReplaceCommit? && !InStop(a)
  {
  }

  /** A replace that fails before it has turned to the old process, for whichever reason, never does:
      no step of that call, at any moment of the run, stops any process but its own or changes the table. */
  lemma FailedReplaceSparesOld(ws: seq<World>, ls: seq<Label>, j: nat, k: nat, t: Tid)
    requires IsRun(ws, ls) && j < |ls| < |ws| && k < |ls| && Turn(ws, ls, j, t) && !ws[j].acts[t].ReplaceCommit?
    requires Fails(ws[j], ws[j].acts[t], ws[j].procs[ws[j].acts[t].u], ls[j].c)
    requires Turn(ws, ls, k, t)
    ensures ws[k + 1].table == ws[k].table && (InStop(ws[k].acts[t]) ==> ws[k].acts[t].u == ws[j].acts[t].u)
  {
    hide Inv, Next, Enabled, IsRun, Listed;
    if j < k {
      FailedReplaceLeaves(ws, ls, j, k, t);
    } else {
      var u := ws[j].acts[t].u;
      EarlyBefore(ws, ls, k, j, t, u);
      RunStep(ws, ls, k);
      EarlyOnly(ws[k], ls[k], t, u);
    }
  }

  lemma EarlyOnly(w: World, l: Label, t: Tid, u: Uuid)
    requires Enabled(w, l) && l.Move? && l.t == t && t in w.acts && Early(w.acts[t], u)
    ensures Next(w, l).table == w.table && !InStop(w.acts[t])
  {
    hide Next, Enabled;
    if n :| !(n in Next(w, l).table <==> n in w.table) || (n in w.table && Next(w, l).table[n] != w.table[n]) {
      TableWrites(w, l, n);
    }
  }
}
