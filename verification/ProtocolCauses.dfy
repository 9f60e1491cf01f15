/** Why the steps that matter are taken: over any run, each goes back to the steps that the source
    makes it depend on. */
module ProtocolCauses {
  import opened Wrappers
  import opened PortLedger
  import opened Protocol
  import opened ProtocolInv
  import opened ProtocolSteps
  import opened ProtocolPreserve
  import opened ProtocolTheorems
  import opened ProtocolActs

  /** Step j is t's, which stands at a point of a process in the table of processes. */
  ghost predicate Turn(ws: seq<World>, ls: seq<Label>, j: nat, t: Tid)
    requires |ls| < |ws|
  {
    && j < |ls| && ls[j].Move? && ls[j].t == t && t in ws[j].acts
    && !ws[j].acts[t].Notify? && !ws[j].acts[t].DeleteFind? && ws[j].acts[t].u in ws[j].procs
  }

  /** What t stands at after step j: it stood there, or its own step led there, or it is new. */
  lemma CameFrom(w: World, l: Label, t: Tid)
    requires Inv(w) && Enabled(w, l) && t in Next(w, l).acts
    ensures var b := Next(w, l).acts[t];
            || (t in w.acts && w.acts[t] == b && !(l.Move? && l.t == t))
            || (t !in w.acts && Entry(b))
            || (t in w.acts && l.Move? && l.t == t && w.acts[t].DeleteFind? && b.StopClaim? && b.after.ToUnregister?)
            || (t in w.acts && l.Move? && l.t == t && !w.acts[t].Notify? && !w.acts[t].DeleteFind?
                && w.acts[t].u in w.procs && Leads(w, t, l.c) == Some(b))
  {
    hide Inv, Next, Enabled, Entry, Leads;
    if t !in w.acts {
      Births(w, l, t);
    } else if !(l.Move? && l.t == t) {
      StaysPut(w, l, t);
    } else {
      assert l == Move(t, l.c);
      if w.acts[t].Notify? || w.acts[t].DeleteFind? { FoundOrOver(w, t, l.c); } else { MoveLeads(w, t, l.c); }
    }
  }

  lemma FoundOrOver(w: World, t: Tid, c: Choice)
    requires t in w.acts && (w.acts[t].Notify? || w.acts[t].DeleteFind?)
    ensures t in Next(w, Move(t, c)).acts ==>
              var b := Next(w, Move(t, c)).acts[t]; w.acts[t].DeleteFind? && b.StopClaim? && b.after.ToUnregister?
  {
    hide ProcStep;
  }

  /** Nobody stands anywhere before the first step. */
  lemma SomeStep(ws: seq<World>, ls: seq<Label>, k: nat, t: Tid)
    requires IsRun(ws, ls) && k <= |ls| && t in ws[k].acts
    ensures k > 0 && |ls| < |ws| && Inv(ws[k - 1]) && Enabled(ws[k - 1], ls[k - 1]) && ws[k] == Next(ws[k - 1], ls[k - 1])
  {
    hide Inv, Next, Enabled;
    NotAtStart(ws, ls, k, t);
    RunInv(ws, ls, k - 1);
    RunStep(ws, ls, k - 1);
  }

  // ----- the stop goroutine -----

  /** A stop is claimed gracefully from Starting or Running, and for a kill a minute after the first
      claim of a process that is still there. */
  predicate ClaimKind(p: Proc, now: int, graceful: bool) {
    if graceful then p.state.Starting? || p.state.Running?
    else (p.state.Stopping? || p.state.Stopped? || p.state.Error?) && p.deletedAt.Some? && p.deletedAt.value + 60_000 < now
  }

  ghost predicate ClaimedAt(ws: seq<World>, ls: seq<Label>, i: nat, x: Tid, u: Uuid, graceful: bool)
    requires |ls| < |ws|
  {
    && Turn(ws, ls, i, x) && ws[i].acts[x].StopClaim? && ws[i].acts[x].u == u
    && ClaimKind(ws[i].procs[u], Clock(ws[i], ws[i].acts[x], ls[i].c), graceful)
  }

  lemma LeadsToStop(w: World, t: Tid, c: Choice, b: Act)
    requires t in w.acts && !w.acts[t].Notify? && !w.acts[t].DeleteFind? && w.acts[t].u in w.procs
    requires Leads(w, t, c) == Some(b)
    ensures b.StopSend? ==>
              && w.acts[t].StopClaim? && w.acts[t].u == b.u && w.acts[t].after == b.after
              && ClaimKind(w.procs[b.u], Clock(w, w.acts[t], c), b.graceful)
    ensures b.StopLoad? ==> w.acts[t] == StopSend(b.u, b.graceful, b.after)
    ensures !b.StopperCheck?
  {
    hide Start;
    StartLeads(w, t, c);
  }

  lemma StartLeads(w: World, t: Tid, c: Choice)
    requires t in w.acts && !w.acts[t].Notify? && !w.acts[t].DeleteFind? && w.acts[t].u in w.procs
    ensures w.acts[t].CreateStart? ==> Leads(w, t, c) == if c.ok then None else Some(Notify)
    ensures w.acts[t].ReplaceStart? ==>
              var a := w.acts[t];
              exists now :: Leads(w, t, c) == Some(if c.ok then ReplacePoll(a.u, a.o, 0) else StopClaim(a.u, now, ToRelease))
  {
    hide StopStep;
    var a := w.acts[t];
    if a.ReplaceStart? && !c.ok { assert Leads(w, t, c) == Some(StopClaim(a.u, Leads(w, t, c).value.since, ToRelease)); }
  }

  lemma NoEntry(b: Act)
    requires Entry(b)
    ensures !b.StopSend? && !b.StopLoad? && !b.StopperPoll? && !b.StopperKill? && !b.StopperLook? && !b.StopperWrite?
    ensures !b.UnregRecheck? && !b.UnregRemove? && !b.RunSet? && !b.RunWait? && !b.ReadySet? && !b.ReadyCheck?
    ensures !InReplace(b, 0, 0) && !b.StopClaim? && !b.ReplaceDropLog? && !b.ReplaceDropPorts?
  {
  }

  /** A stop on its way to its goroutine was claimed by the same call. */
  lemma {:induction false} SendWasClaimed(ws: seq<World>, ls: seq<Label>, k: nat, x: Tid) returns (i: nat)
    requires IsRun(ws, ls) && k <= |ls| < |ws| && x in ws[k].acts && (ws[k].acts[x].StopSend? || ws[k].acts[x].StopLoad?)
    ensures i < k && ClaimedAt(ws, ls, i, x, ws[k].acts[x].u, ws[k].acts[x].graceful)
  {
    hide Inv, Next, Enabled, IsRun, ClaimKind, Leads, Entry;
    SomeStep(ws, ls, k, x);
    var w, l, b := ws[k - 1], ls[k - 1], ws[k].acts[x];
    CameFrom(w, l, x);
    i := 0;
    if x !in w.acts {
      NoEntry(b);
    } else if w.acts[x] == b {
      i := SendWasClaimed(ws, ls, k - 1, x);
    } else {
      LeadsToStop(w, x, l.c, b);
      if b.StopSend? { i := k - 1; } else { i := SendWasClaimed(ws, ls, k - 1, x); }
    }
  }

  /** Step j is x's, which loads the command of u and starts t as the goroutine of its stop. */
  ghost predicate StartsStopper(ws: seq<World>, ls: seq<Label>, j: nat, x: Tid, t: Tid, u: Uuid, graceful: bool)
    requires |ls| < |ws|
  {
    && Turn(ws, ls, j, x) && ws[j].acts[x].StopLoad? && ws[j].acts[x].u == u && ws[j].acts[x].graceful == graceful
    && t == ws[j].nextTid
  }

  /** Between j and k, poll y of the goroutine found u neither Stopped nor Error. */
  ghost predicate PolledIn(ws: seq<World>, ls: seq<Label>, j: nat, k: nat, t: Tid, u: Uuid, y: nat)
    requires |ls| < |ws|
  {
    exists m :: j < m < k && Turn(ws, ls, m, t) && ws[m].acts[t] == StopperPoll(u, y) && !Terminal(ws[m].procs[u].state)
  }

  ghost predicate PolledOften(ws: seq<World>, ls: seq<Label>, j: nat, k: nat, t: Tid, u: Uuid, n: nat)
    requires |ls| < |ws|
  {
    forall y: nat :: y < n ==> PolledIn(ws, ls, j, k, t, u, y)
  }

  /** Between j and k the goroutine checked u's command and found it live, or not. */
  ghost predicate CheckedIn(ws: seq<World>, ls: seq<Label>, j: nat, k: nat, t: Tid, u: Uuid, live: bool)
    requires |ls| < |ws|
  {
    exists m :: j < m < k && Turn(ws, ls, m, t) && ws[m].acts[t].StopperCheck? && ws[m].acts[t].u == u
                && ws[m].procs[u].cmd.Live? == live
  }

  /** Between j and k the goroutine saw that u was not Stopped, or in its second look not Error. */
  ghost predicate SawIn(ws: seq<World>, ls: seq<Label>, j: nat, k: nat, t: Tid, u: Uuid, again: bool)
    requires |ls| < |ws|
  {
    exists m :: j < m < k && Turn(ws, ls, m, t) && ws[m].acts[t] == StopperLook(u, again)
                && (if again then !ws[m].procs[u].state.Error? else !ws[m].procs[u].state.Stopped?)
  }

  /** What the goroutine of a stop has behind it where it stands. */
  ghost predicate Story(ws: seq<World>, ls: seq<Label>, j: nat, k: nat, t: Tid, u: Uuid, graceful: bool, a: Act)
    requires j < |ws| && |ls| < |ws| && u in ws[j].procs
  {
    && (a.StopperCheck? ==> a.graceful == graceful && (a.hasCmd <==> !ws[j].procs[u].cmd.NoCmd?))
    && (a.StopperPoll? ==> graceful && PolledOften(ws, ls, j, k, t, u, a.i))
    && (a.StopperKill? && graceful ==> PolledOften(ws, ls, j, k, t, u, 600))
    && (a.StopperPoll? || a.StopperKill? ==> CheckedIn(ws, ls, j, k, t, u, true))
    && (a.StopperLook? || a.StopperWrite? ==> ws[j].procs[u].cmd.NoCmd? || CheckedIn(ws, ls, j, k, t, u, false))
    && ((a.StopperLook? && a.again) || a.StopperWrite? ==> SawIn(ws, ls, j, k, t, u, false))
    && (a.StopperWrite? ==> SawIn(ws, ls, j, k, t, u, true))
  }

  predicate Works(a: Act) { a.StopperCheck? || a.StopperPoll? || a.StopperKill? || a.StopperLook? || a.StopperWrite? }

  lemma LeadsToStopper(w: World, t: Tid, c: Choice, b: Act)
    requires t in w.acts && !w.acts[t].Notify? && !w.acts[t].DeleteFind? && w.acts[t].u in w.procs
    requires Leads(w, t, c) == Some(b)
    ensures b.StopperPoll? ==>
              var a, p := w.acts[t], w.procs[b.u];
              a.u == b.u && if b.i == 0 then a.StopperCheck? && a.graceful && p.cmd.Live?
                            else a == StopperPoll(b.u, b.i - 1) && !Terminal(p.state)
    ensures b.StopperKill? ==>
              var a, p := w.acts[t], w.procs[b.u];
              && a.u == b.u && (a.StopperCheck? || a.StopperPoll?)
              && (a.StopperCheck? ==> !a.graceful && p.cmd.Live?) && (a.StopperPoll? ==> a.i >= 600)
    ensures b.StopperLook? ==>
              var a, p := w.acts[t], w.procs[b.u];
              a.u == b.u && if b.again then a == StopperLook(b.u, false) && !p.state.Stopped?
                            else a.StopperCheck? && (!a.hasCmd || !p.cmd.Live?)
    ensures b.StopperWrite? ==> w.acts[t] == StopperLook(b.u, true) && !w.procs[b.u].state.Error?
    ensures !b.StopperCheck?
  {
    hide Start, StopStep;
    StartLeads(w, t, c);
    if w.acts[t].StopClaim? { ClaimLeads(w, t, c); }
  }

  lemma ClaimLeads(w: World, t: Tid, c: Choice)
    requires t in w.acts && w.acts[t].StopClaim? && w.acts[t].u in w.procs
    ensures Leads(w, t, c).Some? ==>
              var b := Leads(w, t, c).value;
              b.StopSend? || b.StopClose? || b.DeleteUnregister? || b.ReplaceCommit? || b.ReplaceRelease?
  {
  }

  lemma StoryGoesOn(ws: seq<World>, ls: seq<Label>, j: nat, k: nat, t: Tid, u: Uuid, graceful: bool, a: Act)
    requires j < k < |ws| && |ls| < |ws| && u in ws[j].procs && Story(ws, ls, j, k, t, u, graceful, a)
    ensures Story(ws, ls, j, k + 1, t, u, graceful, a)
  {
    hide Turn;
    var next := k + 1;
    forall y: nat, n: nat | y < n && PolledOften(ws, ls, j, k, t, u, n) ensures PolledIn(ws, ls, j, next, t, u, y) {
      assert PolledIn(ws, ls, j, k, t, u, y);
    }
  }

  lemma StoryTurn(ws: seq<World>, ls: seq<Label>, j: nat, k: nat, t: Tid, u: Uuid, graceful: bool, b: Act)
    requires j < k < |ls| < |ws| && u in ws[j].procs && Turn(ws, ls, k, t) && ws[k].acts[t].u == u && Works(ws[k].acts[t])
    requires Story(ws, ls, j, k, t, u, graceful, ws[k].acts[t]) && Leads(ws[k], t, ls[k].c) == Some(b)
    requires b.StopperPoll? || b.StopperKill? || b.StopperLook? || b.StopperWrite?
    ensures b.u == u && Story(ws, ls, j, k + 1, t, u, graceful, b)
  {
    hide Leads, PolledOften, PolledIn, CheckedIn, SawIn;
    var a := ws[k].acts[t];
    LeadsToStopper(ws[k], t, ls[k].c, b);
    StoryGoesOn(ws, ls, j, k, t, u, graceful, a);
    if a.StopperCheck? { ChecksNow(ws, ls, j, k, t, u); }
    if a.StopperPoll? && b.StopperPoll? { PollsNow(ws, ls, j, k, t, u, a.i); }
    if a.StopperPoll? && b.StopperKill? { FewerPolls(ws, ls, j, k + 1, t, u, a.i, 600); }
    if b.StopperPoll? && b.i == 0 { NoPolls(ws, ls, j, k + 1, t, u); }
    if a.StopperLook? { SeesNow(ws, ls, j, k, t, u, a.again); }
  }

  lemma ChecksNow(ws: seq<World>, ls: seq<Label>, j: nat, k: nat, t: Tid, u: Uuid)
    requires j < k < |ls| < |ws| && Turn(ws, ls, k, t) && ws[k].acts[t].StopperCheck? && ws[k].acts[t].u == u
    ensures CheckedIn(ws, ls, j, k + 1, t, u, ws[k].procs[u].cmd.Live?)
  {
  }

  lemma PollsNow(ws: seq<World>, ls: seq<Label>, j: nat, k: nat, t: Tid, u: Uuid, n: nat)
    requires j < k < |ls| < |ws| && Turn(ws, ls, k, t) && ws[k].acts[t] == StopperPoll(u, n) && !Terminal(ws[k].procs[u].state)
    requires PolledOften(ws, ls, j, k + 1, t, u, n)
    ensures PolledOften(ws, ls, j, k + 1, t, u, n + 1)
  {
    var next := k + 1;
    assert PolledIn(ws, ls, j, next, t, u, n);
  }

  lemma FewerPolls(ws: seq<World>, ls: seq<Label>, j: nat, k: nat, t: Tid, u: Uuid, n: nat, m: nat)
    requires |ls| < |ws| && m <= n && PolledOften(ws, ls, j, k, t, u, n)
    ensures PolledOften(ws, ls, j, k, t, u, m)
  {
  }

  lemma NoPolls(ws: seq<World>, ls: seq<Label>, j: nat, k: nat, t: Tid, u: Uuid)
    requires |ls| < |ws|
    ensures PolledOften(ws, ls, j, k, t, u, 0)
  {
  }

  lemma SeesNow(ws: seq<World>, ls: seq<Label>, j: nat, k: nat, t: Tid, u: Uuid, again: bool)
    requires j < k < |ls| < |ws| && Turn(ws, ls, k, t) && ws[k].acts[t] == StopperLook(u, again)
    requires if again then !ws[k].procs[u].state.Error? else !ws[k].procs[u].state.Stopped?
    ensures SawIn(ws, ls, j, k + 1, t, u, again)
  {
  }

  /** A stop goroutine is started by the load of the command. */
  lemma StopperBorn(w: World, l: Label, t: Tid)
    requires Inv(w) && Enabled(w, l) && t !in w.acts && t in Next(w, l).acts && Next(w, l).acts[t].StopperCheck?
    ensures l.Move? && l.t in w.acts && w.acts[l.t].StopLoad? && w.acts[l.t].u in w.procs && t == w.nextTid
    ensures var a := w.acts[l.t];
            Next(w, l).acts[t] == StopperCheck(a.u, a.graceful, !w.procs[a.u].cmd.NoCmd?)
  {
    hide Inv, Local, Advance, ProcStep, PointOK, FieldsOK, AllFilled;
    if l.Move? && !w.acts[l.t].Notify? && !w.acts[l.t].DeleteFind? {
      var a := w.acts[l.t];
      Facts(w, l.t, a.u);
      var p := w.procs[a.u];
      if Touches(a) {
        TouchBears(w, l.t, a, p, l.c);
      } else {
        var s := See(w, a, p, l.c);
        PointIsAdvance(w, l.t, a, p, l.c);
        AdvanceSpawns(w, l.t, a.u, Local(a, p, l.t, s), t);
        SpawnsStopper(a, p, l.t, s);
      }
    }
  }

  lemma AdvanceSpawns(w: World, t: Tid, u: Uuid, e: Effect, x: Tid)
    requires t in w.acts
    ensures x !in w.acts && x in Advance(w, t, u, e).acts ==>
              var b := Advance(w, t, u, e).acts[x];
              (x == w.nextTid && !e.spawn.Zero? && e.spawn.a == b) || (x == w.nextTid + 1 && e.spawn.Two? && e.spawn.b == b)
  {
  }

  lemma SpawnsStopper(a: Act, p: Proc, t: Tid, s: Seen)
    requires !a.Notify? && !a.DeleteFind?
    ensures var spawn := Local(a, p, t, s).spawn;
            && (!spawn.Zero? && spawn.a.StopperCheck? ==>
                  a.StopLoad? && spawn.a == StopperCheck(a.u, a.graceful, !p.cmd.NoCmd?))
            && (spawn.Two? ==> !spawn.b.StopperCheck?)
  {
    hide StopStep;
    if a.StopClaim? { ClaimSpawns(p, a.u, t, s.now, a.after); }
  }

  /** The story of a stop goroutine, whoever else moves: who claimed the stop and how, who started the
      goroutine, and what it has seen since. */
  lemma {:induction false} StopperStory(ws: seq<World>, ls: seq<Label>, k: nat, t: Tid)
    returns (i: nat, j: nat, x: Tid, graceful: bool)
    requires IsRun(ws, ls) && k <= |ls| < |ws| && t in ws[k].acts && Works(ws[k].acts[t])
    ensures i < j < k && ClaimedAt(ws, ls, i, x, ws[k].acts[t].u, graceful)
    ensures StartsStopper(ws, ls, j, x, t, ws[k].acts[t].u, graceful)
    ensures Story(ws, ls, j, k, t, ws[k].acts[t].u, graceful, ws[k].acts[t])
  {
    hide Inv, Next, Enabled, IsRun, ClaimKind, Leads, Entry, Story;
    SomeStep(ws, ls, k, t);
    var w, l, b := ws[k - 1], ls[k - 1], ws[k].acts[t];
    CameFrom(w, l, t);
    if t !in w.acts {
      WorksFromCheck(b);
      StopperBorn(w, l, t);
      x, j, graceful := l.t, k - 1, w.acts[l.t].graceful;
      i := SendWasClaimed(ws, ls, j, x);
      StoryBegins(ws, ls, j, t, b.u, graceful, b);
    } else {
      if w.acts[t] != b { WorksBefore(w, t, l.c, b); }
      i, j, x, graceful := StopperStory(ws, ls, k - 1, t);
      if w.acts[t] == b {
        StoryGoesOn(ws, ls, j, k - 1, t, b.u, graceful, b);
      } else {
        StoryTurn(ws, ls, j, k - 1, t, w.acts[t].u, graceful, b);
      }
    }
  }

  lemma WorksFromCheck(b: Act)
    requires Works(b) && Entry(b)
    ensures b.StopperCheck?
  {
  }

  lemma WorksBefore(w: World, t: Tid, c: Choice, b: Act)
    requires t in w.acts && !w.acts[t].Notify? && !w.acts[t].DeleteFind? && w.acts[t].u in w.procs
    requires Leads(w, t, c) == Some(b) && Works(b)
    ensures Works(w.acts[t]) && w.acts[t].u == b.u && !b.StopperCheck?
  {
    hide Leads;
    LeadsToStopper(w, t, c, b);
  }

  lemma StoryBegins(ws: seq<World>, ls: seq<Label>, j: nat, t: Tid, u: Uuid, graceful: bool, b: Act)
    requires j < |ws| && |ls| < |ws| && u in ws[j].procs && b == StopperCheck(u, graceful, !ws[j].procs[u].cmd.NoCmd?)
    ensures Story(ws, ls, j, j + 1, t, u, graceful, b)
  {
  }

  /** A process is killed only where a second stop came a minute after the first, or where the graceful
      stop's own goroutine found its command live and polled 600 times without seeing it end. */
  lemma KillIsDue(ws: seq<World>, ls: seq<Label>, k: nat, t: Tid, u: Uuid)
    returns (i: nat, j: nat, x: Tid, graceful: bool)
    requires IsRun(ws, ls) && k <= |ls| < |ws| && t in ws[k].acts && ws[k].acts[t] == StopperKill(u)
    ensures i < j < k && ClaimedAt(ws, ls, i, x, u, graceful) && StartsStopper(ws, ls, j, x, t, u, graceful)
    ensures CheckedIn(ws, ls, j, k, t, u, true)
    ensures graceful ==> forall y: nat :: y < 600 ==> PolledIn(ws, ls, j, k, t, u, y)
  {
    hide IsRun, ClaimedAt, StartsStopper, PolledIn, CheckedIn, SawIn;
    i, j, x, graceful := StopperStory(ws, ls, k, t);
  }

  /** The stop goroutine writes Stopped without the lock only where it found no live command, and saw
      in two looks that the process was not Stopped and then not Error. */
  lemma UnlockedWriteIsDue(ws: seq<World>, ls: seq<Label>, k: nat, t: Tid, u: Uuid)
    returns (i: nat, j: nat, x: Tid, graceful: bool)
    requires IsRun(ws, ls) && k <= |ls| < |ws| && t in ws[k].acts && ws[k].acts[t] == StopperWrite(u)
    ensures i < j < k && ClaimedAt(ws, ls, i, x, u, graceful) && StartsStopper(ws, ls, j, x, t, u, graceful)
    ensures ws[j].procs[u].cmd.NoCmd? || CheckedIn(ws, ls, j, k, t, u, false)
    ensures SawIn(ws, ls, j, k, t, u, false) && SawIn(ws, ls, j, k, t, u, true)
  {
    hide IsRun, ClaimedAt, PolledOften, PolledIn, CheckedIn, SawIn;
    i, j, x, graceful := StopperStory(ws, ls, k, t);
  }

  // ----- verdicts -----

  /** The step that led t to where it stands; since then it has not moved. */
  lemma {:induction false} StepBefore(ws: seq<World>, ls: seq<Label>, k: nat, t: Tid) returns (j: nat)
    requires IsRun(ws, ls) && k <= |ls| < |ws| && t in ws[k].acts && !Entry(ws[k].acts[t])
    requires !(ws[k].acts[t].StopClaim? && ws[k].acts[t].after.ToUnregister?)
    ensures j < k && Turn(ws, ls, j, t) && Leads(ws[j], t, ls[j].c) == Some(ws[k].acts[t])
    ensures forall m :: j < m <= k ==> t in ws[m].acts && ws[m].acts[t] == ws[k].acts[t]
  {
    hide Inv, Next, Enabled, IsRun, Leads, Entry;
    SomeStep(ws, ls, k, t);
    var w, l := ws[k - 1], ls[k - 1];
    CameFrom(w, l, t);
    if l.Move? && l.t == t { j := k - 1; } else { j := StepBefore(ws, ls, k - 1, t); }
  }

  lemma LeadsToVerdict(w: World, t: Tid, c: Choice, b: Act)
    requires t in w.acts && !w.acts[t].Notify? && !w.acts[t].DeleteFind? && w.acts[t].u in w.procs
    requires Leads(w, t, c) == Some(b)
    ensures b.UnregRemove? ==>
              w.acts[t] == UnregRecheck(b.u) && (w.procs[b.u].state.Stopped? || w.procs[b.u].state.Error?)
    ensures b.RunSet? ==>
              || (w.acts[t] == RunWait(b.u) && (b.failed <==> !c.ok))
              || (w.acts[t] == RunLaunch(b.u) && b.failed && !c.ok)
    ensures b.ReadySet? ==> w.acts[t] == ReadyWait(b.u) && (w.procs[b.u].first == 0 || c.ok)
    ensures b.ReadyCheck? ==> w.acts[t] == ReadyWait(b.u) && w.procs[b.u].first != 0 && !c.ok
  {
    hide Start, StopStep;
    StartLeads(w, t, c);
    if w.acts[t].StopClaim? { ClaimLeads(w, t, c); }
  }

  /** The unregister goroutine removes a process only after it has itself found it Stopped or Error. */
  lemma RemovalSawStopped(ws: seq<World>, ls: seq<Label>, k: nat, t: Tid, u: Uuid) returns (j: nat)
    requires IsRun(ws, ls) && k <= |ls| < |ws| && t in ws[k].acts && ws[k].acts[t] == UnregRemove(u)
    ensures j < k && Turn(ws, ls, j, t) && ws[j].acts[t] == UnregRecheck(u)
    ensures ws[j].procs[u].state.Stopped? || ws[j].procs[u].state.Error?
  {
    hide IsRun, Leads;
    j := StepBefore(ws, ls, k, t);
    LeadsToVerdict(ws[j], t, ls[j].c, ws[k].acts[t]);
  }

  /** The run goroutine reports what became of the command: Error exactly where the launch failed or
      the command did not end well, else Stopped. */
  lemma OutcomeIsReported(ws: seq<World>, ls: seq<Label>, k: nat, t: Tid, u: Uuid, failed: bool) returns (j: nat)
    requires IsRun(ws, ls) && k < |ls| < |ws| && Turn(ws, ls, k, t) && ws[k].acts[t] == RunSet(u, failed)
    ensures j < k && Turn(ws, ls, j, t) && (ws[j].acts[t] == RunWait(u) || (ws[j].acts[t] == RunLaunch(u) && !ls[j].c.ok))
    ensures u in ws[k + 1].procs && ws[k + 1].procs[u].state == if ls[j].c.ok then Stopped else Error
  {
    hide IsRun, Leads, Next, Enabled;
    j := StepBefore(ws, ls, k, t);
    LeadsToVerdict(ws[j], t, ls[j].c, ws[k].acts[t]);
    RunStep(ws, ls, k);
    SetsState(ws[k], t, ls[k].c);
    assert ls[k] == Move(t, ls[k].c);
  }

  lemma SetsState(w: World, t: Tid, c: Choice)
    requires t in w.acts && w.acts[t].RunSet? && w.acts[t].u in w.procs && Enabled(w, Move(t, c))
    ensures var w' := Next(w, Move(t, c));
            w.acts[t].u in w'.procs && w'.procs[w.acts[t].u].state == if w.acts[t].failed then Error else Stopped
  {
  }

  /** The readiness goroutine reports a process running only where there is nothing to probe or the
      probe succeeded, and turns to stopping it only where the probe failed. */
  lemma ReadinessIsProbed(ws: seq<World>, ls: seq<Label>, k: nat, t: Tid, u: Uuid) returns (j: nat)
    requires IsRun(ws, ls) && k <= |ls| < |ws| && t in ws[k].acts
    requires ws[k].acts[t] == ReadySet(u) || ws[k].acts[t] == ReadyCheck(u)
    ensures j < k && Turn(ws, ls, j, t) && ws[j].acts[t] == ReadyWait(u)
    ensures ws[k].acts[t].ReadySet? <==> ws[j].procs[u].first == 0 || ls[j].c.ok
  {
    hide IsRun, Leads;
    j := StepBefore(ws, ls, k, t);
    LeadsToVerdict(ws[j], t, ls[j].c, ws[k].acts[t]);
  }

  /** Who is to be gone has to move first. */
  lemma {:induction false} MovesFirst(ws: seq<World>, ls: seq<Label>, j: nat, k: nat, t: Tid) returns (m: nat)
    requires IsRun(ws, ls) && j <= k <= |ls| < |ws| && t in ws[j].acts
    requires t !in ws[k].acts || ws[k].acts[t] != ws[j].acts[t]
    ensures j <= m < k && ls[m].Move? && ls[m].t == t && t in ws[m].acts && ws[m].acts[t] == ws[j].acts[t]
    decreases k - j
  {
    hide Inv, Next, Enabled, IsRun;
    RunInv(ws, ls, j);
    RunStep(ws, ls, j);
    if ls[j].Move? && ls[j].t == t {
      m := j;
    } else {
      StaysPut(ws[j], ls[j], t);
      m := MovesFirst(ws, ls, j + 1, k, t);
    }
  }

  /** Where the probe has failed and the process is then found neither Stopped nor Error, the
      readiness goroutine does not end without stopping it. */
  lemma FailedProbeStops(ws: seq<World>, ls: seq<Label>, j: nat, k: nat, t: Tid, u: Uuid) returns (m: nat)
    requires IsRun(ws, ls) && j < k <= |ls| < |ws| && Turn(ws, ls, j, t) && ws[j].acts[t] == ReadyCheck(u)
    requires !ws[j].procs[u].state.Stopped? && !ws[j].procs[u].state.Error? && t !in ws[k].acts
    ensures j < m < k && ls[m].Move? && ls[m].t == t && t in ws[m].acts
    ensures ws[m].acts[t].StopClaim? && ws[m].acts[t].u == u && ws[m].acts[t].after.Return?
  {
    hide Inv, Next, Enabled, IsRun, Leads;
    RunInv(ws, ls, j);
    RunStep(ws, ls, j);
    assert ls[j] == Move(t, ls[j].c);
    MoveLeads(ws[j], t, ls[j].c);
    ChecksThenStops(ws[j], t, ls[j].c);
    m := MovesFirst(ws, ls, j + 1, k, t);
  }

  lemma ChecksThenStops(w: World, t: Tid, c: Choice)
    requires t in w.acts && w.acts[t].ReadyCheck? && w.acts[t].u in w.procs
    requires !w.procs[w.acts[t].u].state.Stopped? && !w.procs[w.acts[t].u].state.Error?
    ensures Leads(w, t, c).Some?
    ensures var b := Leads(w, t, c).value; b.StopClaim? && b.u == w.acts[t].u && b.after.Return?
  {
  }
}
