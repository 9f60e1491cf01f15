/** What the protocol's steps do with locks and channels: over a run, every call and goroutine follows
    one of the paths that LockPaths lists, and what a step writes it writes under its lock. */
module LockSteps {
  import opened Wrappers
  import opened PortLedger
  import opened Protocol
  import opened ProtocolInv
  import opened ProtocolSteps
  import opened ProtocolPreserve
  import opened ProtocolTheorems
  import opened ProtocolActs
  import L = Locking
  import P = LockPaths

  // ----- the operations of a step -----

  /** Allocation gets as far as the bitmap. */
  predicate Asks(p: Proc) { p.portArgs <= p.count && p.count > 0 }

  function GiveBack(): L.Path { P.Under(L.BitmapLock, false) }

  function Signal(u: Uuid): L.Path { P.Under(L.CommandLock(u), true) }

  function PointOps(w: World, a: Act, p: Proc, c: Choice): L.Path {
    match a
    case CreateRegister(_) => P.PortSection(p.name !in w.table && Asks(p))
    case ReplaceInit(_) => P.PortSection(p.name in w.table && Asks(p))
    case UnregRemove(u) => P.PortSection(Holds(w.table, p.name, u))
    case ReplaceCommit(_, o) => P.PortSection(Holds(w.table, p.name, o))
    case ReplaceDropPorts(_) => GiveBack()
    case ReplaceRelease(_) => GiveBack()
    case DeleteFind(_, _) => P.Section(true, [])
    case DeleteUnregister(u) => P.Read(u) + P.Section(false, [])
    case CreateStart(u) => P.Start(u, c.ok)
    case ReplaceStart(u, _) => P.Start(u, c.ok)
    case UnregPoll(u, i) => if i < WAIT_COUNT then P.Read(u) else []
    case UnregRecheck(u) => P.Read(u)
    case ReplacePoll(u, _, i) => if i < REPLACE_POLLS then P.Read(u) else []
    case StopClaim(u, _, _) => P.Write(u)
    case StopLoad(u, _, _) => P.Read(u)
    case StopperCheck(u, graceful, hasCmd) =>
      if !hasCmd then [] else if p.cmd.Live? && graceful then Signal(u) + Signal(u) else Signal(u)
    case StopperPoll(u, i) => if i < WAIT_COUNT then P.Read(u) else []
    case StopperKill(u) => Signal(u)
    case RunSet(u, _) => P.Write(u)
    case ReadySet(u) => P.Write(u)
    case ReadyCheck(u) => P.Read(u)
    case Notify => P.Notify
    case CreateNotify(_) => P.Notify
    case StopSend(_, _, _) => P.Notify
    case _ => []
  }

  /** The step of t, if l is one. */
  function Ops(w: World, l: Label, t: Tid): L.Path {
    if !l.Move? || l.t != t || t !in w.acts then []
    else
      var a := w.acts[t];
      if a.Notify? then P.Notify
      else if a.DeleteFind? then P.Section(true, [])
      else if a.u in w.procs then PointOps(w, a, w.procs[a.u], l.c)
      else []
  }

  /** What t does from step i up to step k. */
  ghost function Trace(ws: seq<World>, ls: seq<Label>, t: Tid, i: nat, k: nat): L.Path
    requires i <= k <= |ls| < |ws|
    decreases k - i
  {
    if i == k then [] else Ops(ws[i], ls[i], t) + Trace(ws, ls, t, i + 1, k)
  }

  // ----- what is left of an activity's path -----

  ghost predicate CommitRest(u: Uuid, q: L.Path) {
    || (exists released :: q == P.PortSection(released) + P.Notify)
    || (exists claimed :: q == P.Section(false, []) + P.Cleanup(u, claimed))
  }

  ghost predicate PollRest(u: Uuid, o: Uuid, q: L.Path) {
    || (exists n: nat, claimed :: q == P.Repeat(P.Read(u), n) + P.Cleanup(u, claimed))
    || (exists n: nat, claimed, r :: CommitRest(u, r) && q == P.Repeat(P.Read(u), n) + (P.Stop(o, claimed) + r))
  }

  ghost predicate StartRest(u: Uuid, o: Uuid, q: L.Path) {
    || (exists claimed :: q == P.Start(u, false) + P.Cleanup(u, claimed))
    || (exists r :: PollRest(u, o, r) && q == P.Start(u, true) + r)
  }

  ghost predicate ReplaceRest(u: Uuid, o: Uuid, q: L.Path) { q == GiveBack() || StartRest(u, o, q) }

  function StartedRest(u: Uuid, ok: bool): L.Path { P.Start(u, ok) + if ok then [] else P.Notify }

  function VerdictRest(stopped: bool, removed: bool): L.Path { if stopped then P.PortSection(removed) + P.Notify else [] }

  function KillRest(u: Uuid, polls: nat, kill: bool): L.Path {
    P.Repeat(P.Read(u), polls) + if kill then Signal(u) else []
  }

  function CheckRest(u: Uuid, stopped: bool, claimed: bool): L.Path { P.Read(u) + if stopped then [] else P.Stop(u, claimed) }

  /** What follows a Stop call. */
  ghost predicate StoppedRest(u: Uuid, after: After, q: L.Path) {
    match after
    case ToUnregister => q == P.Read(u) + P.Section(false, [])
    case ToCommit(n) => CommitRest(n, q)
    case ToRelease => q == GiveBack()
    case Return => q == []
  }

  /** q may be what an activity at point a still does, up to a last read that only makes its answer. */
  ghost predicate Rest(a: Act, q: L.Path) {
    match a
    case CreateRegister(u) =>
      exists ports :: q == P.PortSection(ports) || exists ok :: q == P.PortSection(ports) + (P.Notify + StartedRest(u, ok))
    case CreateNotify(u) => exists ok :: q == P.Notify + StartedRest(u, ok)
    case CreateStart(u) => exists ok :: q == StartedRest(u, ok)
    case DeleteFind(_, _) => exists u, found, claimed :: q == P.Delete(u, found, claimed)
    case DeleteUnregister(u) => q == P.Read(u) + P.Section(false, [])
    case UnregPoll(u, _) => exists n: nat, stopped, removed :: q == P.Unregister(u, n, stopped, removed)
    case UnregRecheck(u) => exists stopped, removed :: q == P.Read(u) + VerdictRest(stopped, removed)
    case UnregRemove(u) => exists removed :: q == P.PortSection(removed) + P.Notify
    case ReplaceInit(u) =>
      exists ports :: q == P.PortSection(ports) || exists o, r :: ReplaceRest(u, o, r) && q == P.PortSection(ports) + r
    case ReplaceCompare(u, o) => ReplaceRest(u, o, q)
    case ReplaceDropLog(_) => q == GiveBack()
    case ReplaceDropPorts(_) => q == GiveBack()
    case ReplaceStart(u, o) => StartRest(u, o, q)
    case ReplacePoll(u, o, _) => PollRest(u, o, q)
    case ReplaceCommit(u, _) => CommitRest(u, q)
    case ReplaceRelease(_) => q == GiveBack()
    case StopClaim(u, _, after) => exists claimed, r :: StoppedRest(u, after, r) && q == P.Stop(u, claimed) + r
    case StopClose(u, after) => StoppedRest(u, after, q)
    case StopSend(u, _, after) => exists r :: StoppedRest(u, after, r) && q == P.Notify + (P.Read(u) + r)
    case StopLoad(u, _, after) => exists r :: StoppedRest(u, after, r) && q == P.Read(u) + r
    case StopperCheck(u, _, _) => exists hasCmd, live, n, kill :: q == P.Stopper(u, hasCmd, live, n, kill)
    case StopperPoll(u, _) => exists n: nat, kill :: q == KillRest(u, n, kill)
    case StopperKill(u) => q == Signal(u)
    case RunLaunch(u) => q == P.RunGoroutine(u)
    case RunWait(u) => q == P.RunGoroutine(u)
    case RunSet(u, _) => q == P.RunGoroutine(u)
    case ReadyWait(u) => exists healthy, stopped, claimed :: q == P.ReadyGoroutine(u, healthy, stopped, claimed)
    case ReadySet(u) => q == P.Write(u) + P.Notify
    case ReadyCheck(u) => exists stopped, claimed :: q == CheckRest(u, stopped, claimed)
    case Notify => q == P.Notify
    case _ => q == []
  }

  ghost predicate Follows(b: Option<Act>, q: L.Path) { if b.Some? then Rest(b.value, q) else q == [] }

  lemma Resumes(u: Uuid, after: After, q: L.Path)
    requires Follows(Resume(u, after), q)
    ensures StoppedRest(u, after, q)
  {
  }

  // ----- one step, point by point -----

  lemma Assoc(a: L.Path, b: L.Path, c: L.Path)
    ensures a + b + c == a + (b + c)
  {
  }

  lemma Empty(q: L.Path)
    ensures [] + q == q && q + [] == q
  {
  }

  lemma ClaimStep(p: Proc, u: Uuid, t: Tid, now: int, after: After, q: L.Path)
    requires Follows(StopStep(p, u, t, now, after).next, q)
    ensures exists claimed, r :: StoppedRest(u, after, r) && P.Write(u) + q == P.Stop(u, claimed) + r
  {
    hide Rest, StoppedRest, P.Write, P.Notify, P.Read;
    match Claim(p.state, p.deletedAt, now)
    case Graceful => Sends(u, true, after, q);
    case TimeoutKill => Sends(u, false, after, q);
    case CloseOnly => Closes(u, after, q); Empty(P.Write(u)); assert P.Write(u) + q == P.Stop(u, false) + q;
    case Nothing => Resumes(u, after, q); Empty(P.Write(u)); assert P.Write(u) + q == P.Stop(u, false) + q;
  }

  lemma Sends(u: Uuid, graceful: bool, after: After, q: L.Path)
    requires Rest(StopSend(u, graceful, after), q)
    ensures exists claimed, r :: StoppedRest(u, after, r) && P.Write(u) + q == P.Stop(u, claimed) + r
  {
    hide StoppedRest, P.Write, P.Notify, P.Read;
    var r :| StoppedRest(u, after, r) && q == P.Notify + (P.Read(u) + r);
    assert P.Write(u) + q == P.Stop(u, true) + r by {
      Assoc(P.Notify, P.Read(u), r);
      Assoc(P.Write(u), P.Notify + P.Read(u), r);
    }
  }

  lemma Closes(u: Uuid, after: After, q: L.Path)
    requires Rest(StopClose(u, after), q)
    ensures StoppedRest(u, after, q)
  {
  }

  lemma CreateStartStep(p: Proc, u: Uuid, s: Seen, q: L.Path)
    requires Follows(Start(p, u, s, None, Notify).next, q)
    ensures P.Start(u, s.ok) + q == StartedRest(u, s.ok)
  {
  }

  lemma ReplaceStartStep(p: Proc, u: Uuid, o: Uuid, s: Seen, q: L.Path)
    requires Follows(Start(p, u, s, Some(ReplacePoll(u, o, 0)), StopClaim(u, s.now, ToRelease)).next, q)
    ensures StartRest(u, o, P.Start(u, s.ok) + q)
  {
    hide P.Start, PollRest;
    if !s.ok { CleansUp(u, s.now, q); }
  }

  lemma CleansUp(u: Uuid, since: int, q: L.Path)
    requires Rest(StopClaim(u, since, ToRelease), q)
    ensures exists claimed :: q == P.Cleanup(u, claimed)
  {
    hide P.Stop;
    var claimed, r :| StoppedRest(u, ToRelease, r) && q == P.Stop(u, claimed) + r;
    assert q == P.Cleanup(u, claimed);
  }

  lemma OneMore(x: L.Path, n: nat, r: L.Path)
    ensures x + (P.Repeat(x, n) + r) == P.Repeat(x, n + 1) + r
  {
    Assoc(x, P.Repeat(x, n), r);
  }

  lemma NoMore(x: L.Path, r: L.Path)
    ensures P.Repeat(x, 0) + r == r
  {
  }

  lemma ReplacePollAgain(u: Uuid, o: Uuid, q: L.Path)
    requires PollRest(u, o, q)
    ensures PollRest(u, o, P.Read(u) + q)
  {
    hide CommitRest, P.Cleanup, P.Stop, P.Repeat, P.Read;
    if n, claimed :| q == P.Repeat(P.Read(u), n) + P.Cleanup(u, claimed) {
      OneMore(P.Read(u), n, P.Cleanup(u, claimed));
    } else {
      var n, claimed, r :| CommitRest(u, r) && q == P.Repeat(P.Read(u), n) + (P.Stop(o, claimed) + r);
      OneMore(P.Read(u), n, P.Stop(o, claimed) + r);
    }
  }

  lemma ReplacePollEnds(u: Uuid, o: Uuid, since: int, q: L.Path)
    requires Rest(StopClaim(o, since, ToCommit(u)), q) || Rest(StopClaim(u, since, ToRelease), q)
    ensures PollRest(u, o, q)
  {
    hide CommitRest, P.Cleanup, P.Stop, P.Repeat, P.Read;
    if Rest(StopClaim(u, since, ToRelease), q) {
      CleansUp(u, since, q);
      var claimed :| q == P.Cleanup(u, claimed);
      NoMore(P.Read(u), q);
    } else {
      var claimed, r :| StoppedRest(o, ToCommit(u), r) && q == P.Stop(o, claimed) + r;
      NoMore(P.Read(u), q);
    }
  }

  lemma ReplacePollStep(u: Uuid, o: Uuid, i: nat, p: Proc, t: Tid, s: Seen, q: L.Path)
    requires Follows(Local(ReplacePoll(u, o, i), p, t, s).next, q)
    ensures PollRest(u, o, q) && PollRest(u, o, P.Read(u) + q)
  {
    hide PollRest, P.Read;
    var b := Local(ReplacePoll(u, o, i), p, t, s).next.value;
    if b.StopClaim? {
      hide Rest;
      ReplacePollEnds(u, o, s.now, q);
    }
    ReplacePollAgain(u, o, q);
  }

  lemma UnregPollStep(u: Uuid, i: nat, p: Proc, t: Tid, s: Seen, q: L.Path)
    requires Follows(Local(UnregPoll(u, i), p, t, s).next, q)
    ensures Rest(UnregPoll(u, i), q) && Rest(UnregPoll(u, i), P.Read(u) + q)
  {
    hide P.Read, P.PortSection, P.Notify, P.Repeat;
    var n: nat, stopped, removed := 1, false, false;
    if Local(UnregPoll(u, i), p, t, s).next.value.UnregRecheck? {
      stopped, removed :| q == P.Read(u) + VerdictRest(stopped, removed);
      OneMore(P.Read(u), 0, VerdictRest(stopped, removed));
      NoMore(P.Read(u), VerdictRest(stopped, removed));
    } else {
      n, stopped, removed :| q == P.Unregister(u, n, stopped, removed);
    }
    assert q == P.Unregister(u, n, stopped, removed);
    OneMore(P.Read(u), n, VerdictRest(stopped, removed));
    assert P.Read(u) + q == P.Unregister(u, n + 1, stopped, removed);
  }

  lemma StopperPollStep(u: Uuid, i: nat, p: Proc, t: Tid, s: Seen, q: L.Path)
    requires Follows(Local(StopperPoll(u, i), p, t, s).next, q)
    ensures Rest(StopperPoll(u, i), q) && Rest(StopperPoll(u, i), P.Read(u) + q)
  {
    hide P.Read, P.Repeat, Signal;
    var n: nat, kill := 0, false;
    var b := Local(StopperPoll(u, i), p, t, s).next.value;
    if b.StopperPoll? {
      n, kill :| q == KillRest(u, n, kill);
    } else {
      kill := b.StopperKill?;
      NoMore(P.Read(u), q);
    }
    assert q == KillRest(u, n, kill);
    OneMore(P.Read(u), n, if kill then Signal(u) else []);
    assert P.Read(u) + q == KillRest(u, n + 1, kill);
  }

  lemma StopperCheckStep(u: Uuid, graceful: bool, hasCmd: bool, p: Proc, t: Tid, s: Seen, q: L.Path)
    requires Follows(Local(StopperCheck(u, graceful, hasCmd), p, t, s).next, q)
    ensures var ops := if !hasCmd then [] else if p.cmd.Live? && graceful then Signal(u) + Signal(u) else Signal(u);
            Rest(StopperCheck(u, graceful, hasCmd), ops + q)
  {
    hide P.Read, P.Repeat, P.Under;
    var b := Local(StopperCheck(u, graceful, hasCmd), p, t, s).next.value;
    if !hasCmd {
      assert [] + q == P.Stopper(u, false, false, 0, false);
    } else if b.StopperPoll? {
      var n: nat, kill :| q == KillRest(u, n, kill);
      CheckedFirst(u, n, kill);
      assert Signal(u) + Signal(u) + q == P.Stopper(u, true, true, n, kill);
    } else if b.StopperKill? {
      CheckedFirst(u, 0, false);
      NoMore(P.Read(u), []);
      Empty(Signal(u) + Signal(u));
      assert Signal(u) + q == P.Stopper(u, true, true, 0, false);
    } else {
      assert Signal(u) + q == P.Stopper(u, true, false, 0, false);
    }
  }

  lemma CheckedFirst(u: Uuid, n: nat, kill: bool)
    ensures Signal(u) + Signal(u) + KillRest(u, n, kill) == P.Stopper(u, true, true, n, kill)
  {
    hide P.Read, P.Repeat, P.Under;
    var k := if kill then Signal(u) else [];
    Assoc(Signal(u), P.Repeat(P.Read(u), n), k);
    Assoc(Signal(u), Signal(u), KillRest(u, n, kill));
  }

  lemma ReadyStep(a: Act, p: Proc, t: Tid, s: Seen, q: L.Path)
    requires a.ReadyWait? || a.ReadyCheck?
    requires Follows(Local(a, p, t, s).next, q)
    ensures a.ReadyWait? ==> Rest(a, q)
    ensures a.ReadyCheck? ==> Rest(a, P.Read(a.u) + q)
  {
    hide P.Read, P.Write, P.Notify;
    var u := a.u;
    if a.ReadyCheck? {
      var stopped, claimed := Terminal(p.state), false;
      if !stopped {
        claimed := StopsAtEnd(u, s.now, q);
      }
      assert P.Read(u) + q == CheckRest(u, stopped, claimed);
    } else {
      var b := Local(a, p, t, s).next.value;
      if b.ReadySet? {
        assert q == P.ReadyGoroutine(u, true, true, true);
      } else {
        var stopped, claimed :| q == CheckRest(u, stopped, claimed);
        assert q == P.ReadyGoroutine(u, false, stopped, claimed);
      }
    }
  }

  lemma StopsAtEnd(u: Uuid, since: int, q: L.Path) returns (claimed: bool)
    requires Rest(StopClaim(u, since, Return), q)
    ensures q == P.Stop(u, claimed)
  {
    hide P.Stop;
    var c, r :| StoppedRest(u, Return, r) && q == P.Stop(u, c) + r;
    claimed := c;
  }

  lemma StopStepRest(a: Act, p: Proc, t: Tid, s: Seen, q: L.Path)
    requires InStop(a) && Follows(Local(a, p, t, s).next, q)
    ensures a.StopClaim? ==> Rest(a, P.Write(a.u) + q)
    ensures a.StopClose? ==> Rest(a, q)
    ensures a.StopSend? ==> Rest(a, P.Notify + q)
    ensures a.StopLoad? ==> Rest(a, P.Read(a.u) + q)
  {
    hide StoppedRest, P.Read, P.Write, P.Notify, Claim;
    match a
    case StopClaim(u, _, after) => ClaimStep(p, u, t, s.now, after, q);
    case StopSend(u, graceful, after) => Sent(u, graceful, after, q);
    case StopClose(u, after) => Resumes(u, after, q);
    case StopLoad(u, _, after) => Resumes(u, after, q);
  }

  lemma Sent(u: Uuid, graceful: bool, after: After, q: L.Path)
    requires Rest(StopLoad(u, graceful, after), q)
    ensures Rest(StopSend(u, graceful, after), P.Notify + q)
  {
    hide StoppedRest, P.Read, P.Notify;
    var r :| StoppedRest(u, after, r) && q == P.Read(u) + r;
    assert P.Notify + q == P.Notify + (P.Read(u) + r);
  }

  predicate InCallsOnly(a: Act) {
    || a.CreateNotify? || a.CloseLog? || a.DeleteUnregister? || a.UnregRecheck? || a.ReplaceCompare? || a.ReplaceDropLog?
  }

  predicate EndsStopper(a: Act) { a.StopperLook? || a.StopperWrite? || a.StopperKill? || a.StopperClose? }

  lemma CallStep(w: World, a: Act, p: Proc, t: Tid, c: Choice, q: L.Path)
    requires InCallsOnly(a) && Follows(Local(a, p, t, See(w, a, p, c)).next, q)
    ensures Rest(a, PointOps(w, a, p, c) + q)
  {
    hide Start, StopStep, P.Read, P.Notify, P.Under, P.Section, P.PortSection, StartRest, StartedRest;
    Empty(q);
    Empty(PointOps(w, a, p, c));
    if a.UnregRecheck? { RecheckStep(a.u, p, t, See(w, a, p, c), q); }
  }

  lemma StopperStep(w: World, a: Act, p: Proc, t: Tid, c: Choice, q: L.Path)
    requires EndsStopper(a) && Follows(Local(a, p, t, See(w, a, p, c)).next, q)
    ensures Rest(a, PointOps(w, a, p, c) + q)
  {
    hide Start, StopStep, Signal;
    Empty(q);
    Empty(Signal(a.u));
  }

  lemma LaunchStep(u: Uuid, p: Proc, t: Tid, s: Seen, q: L.Path)
    requires Follows(Local(RunLaunch(u), p, t, s).next, q)
    ensures Rest(RunLaunch(u), q)
  {
    hide P.RunGoroutine;
  }

  lemma WaitStep(u: Uuid, p: Proc, t: Tid, s: Seen, q: L.Path)
    requires Follows(Local(RunWait(u), p, t, s).next, q)
    ensures Rest(RunWait(u), q)
  {
    hide P.RunGoroutine;
  }

  lemma OutcomeStep(w: World, a: Act, p: Proc, t: Tid, c: Choice, q: L.Path)
    requires (a.RunSet? || a.ReadySet?) && Follows(Local(a, p, t, See(w, a, p, c)).next, q)
    ensures Rest(a, PointOps(w, a, p, c) + q)
  {
    hide Start, StopStep, P.Write, P.Notify, P.RunGoroutine;
    assert q == P.Notify;
    assert P.Write(a.u) + P.Notify == P.RunGoroutine(a.u) by { Run(a.u); }
  }

  lemma Run(u: Uuid)
    ensures P.RunGoroutine(u) == P.Write(u) + P.Notify
  {
    hide P.Write, P.Notify;
  }

  lemma RecheckStep(u: Uuid, p: Proc, t: Tid, s: Seen, q: L.Path)
    requires Follows(Local(UnregRecheck(u), p, t, s).next, q)
    ensures Rest(UnregRecheck(u), P.Read(u) + q)
  {
    hide P.Read, P.Notify, P.PortSection;
    var stopped, removed := Terminal(p.state), false;
    if stopped { removed :| q == P.PortSection(removed) + P.Notify; }
    assert P.Read(u) + q == P.Read(u) + VerdictRest(stopped, removed);
  }

  /** A step that stays off table and bitmap. */
  lemma LocalRest(w: World, a: Act, p: Proc, t: Tid, c: Choice, q: L.Path)
    requires !a.Notify? && !a.DeleteFind? && !Touches(a)
    requires Follows(Local(a, p, t, See(w, a, p, c)).next, q)
    ensures Rest(a, PointOps(w, a, p, c) + q)
  {
    hide Rest, Start, StopStep, P.Read, P.Write, P.Notify, P.Under, P.Section;
    Empty(q);
    var s := See(w, a, p, c);
    if InStop(a) { StopStepRest(a, p, t, s, q); }
    else if a.CreateStart? { CreateStartStep(p, a.u, s, q); Started(a.u, c.ok); }
    else if a.ReplaceStart? { ReplaceStartStep(p, a.u, a.o, s, q); StartsNow(a, P.Start(a.u, s.ok) + q); }
    else if a.ReplacePoll? { ReplacePollStep(a.u, a.o, a.i, p, t, s, q); PollsNow(a, q); PollsNow(a, P.Read(a.u) + q); }
    else if a.UnregPoll? { UnregPollStep(a.u, a.i, p, t, s, q); }
    else if a.StopperPoll? { StopperPollStep(a.u, a.i, p, t, s, q); }
    else if a.StopperCheck? { StopperCheckStep(a.u, a.graceful, a.hasCmd, p, t, s, q); }
    else if a.ReadyWait? || a.ReadyCheck? { ReadyStep(a, p, t, s, q); }
    else if InCallsOnly(a) { CallStep(w, a, p, t, c, q); }
    else if EndsStopper(a) { StopperStep(w, a, p, t, c, q); }
    else if a.RunLaunch? { LaunchStep(a.u, p, t, s, q); }
    else if a.RunWait? { WaitStep(a.u, p, t, s, q); }
    else { OutcomeStep(w, a, p, t, c, q); }
  }

  lemma Started(u: Uuid, ok: bool)
    ensures Rest(CreateStart(u), StartedRest(u, ok))
  {
    hide StartedRest;
  }

  lemma StartsNow(a: Act, q: L.Path)
    requires a.ReplaceStart? && StartRest(a.u, a.o, q)
    ensures Rest(a, q)
  {
    hide StartRest;
  }

  lemma PollsNow(a: Act, q: L.Path)
    requires a.ReplacePoll? && PollRest(a.u, a.o, q)
    ensures Rest(a, q)
  {
    hide PollRest;
  }

  /** A step on table or bitmap, and where it leads. */
  lemma TouchRest(w: World, a: Act, p: Proc, t: Tid, c: Choice, q: L.Path)
    requires Touches(a) && Follows(Onto(w, a, p, c), q)
    ensures Rest(a, PointOps(w, a, p, c) + q)
  {
    hide Follows, P.PortSection, P.Section, P.Notify, P.Under, Rest, Asks;
    Empty(PointOps(w, a, p, c));
    var b := Onto(w, a, p, c);
    if a.CreateRegister? { RegisterRest(a.u, b, p.name !in w.table && Asks(p), q); }
    else if a.ReplaceInit? { InitRest(a.u, b, p.name in w.table && Asks(p), q); }
    else if a.ReplaceCommit? { CommittedRest(a.u, a.o, b, Holds(w.table, p.name, a.o), q); }
    else { LastRest(a, b, PointOps(w, a, p, c), q); }
  }

  lemma RegisterRest(u: Uuid, b: Option<Act>, ports: bool, q: L.Path)
    requires (b == Some(CloseLog(u)) || b == Some(CreateNotify(u))) && Follows(b, q)
    ensures Rest(CreateRegister(u), P.PortSection(ports) + q)
  {
    hide P.PortSection, P.Notify, StartedRest;
    Empty(P.PortSection(ports));
    if b.value.CreateNotify? {
      var ok :| q == P.Notify + StartedRest(u, ok);
      assert P.PortSection(ports) + q == P.PortSection(ports) + (P.Notify + StartedRest(u, ok));
    }
  }

  lemma InitRest(u: Uuid, b: Option<Act>, ports: bool, q: L.Path)
    requires b.Some? && (b.value == CloseLog(u) || (b.value.ReplaceCompare? && b.value.u == u)) && Follows(b, q)
    ensures Rest(ReplaceInit(u), P.PortSection(ports) + q)
  {
    hide P.PortSection, ReplaceRest;
    Empty(P.PortSection(ports));
  }

  lemma CommittedRest(u: Uuid, o: Uuid, b: Option<Act>, released: bool, q: L.Path)
    requires b.Some? && Follows(b, q)
    requires b.value.Notify? || (b.value.StopClaim? && b.value.u == u && b.value.after.ToRelease? && !released)
    ensures Rest(ReplaceCommit(u, o), P.PortSection(released) + q)
  {
    hide P.Section, P.Notify, P.Cleanup;
    if !b.value.Notify? { CleansUp(u, b.value.since, q); }
    assert CommitRest(u, P.PortSection(released) + q);
  }

  lemma LastRest(a: Act, b: Option<Act>, ops: L.Path, q: L.Path)
    requires a.UnregRemove? || a.ReplaceDropPorts? || a.ReplaceRelease?
    requires Follows(b, q) && b == (if a.UnregRemove? then Some(Notify) else None)
    requires if a.UnregRemove? then exists removed :: ops == P.PortSection(removed) else ops == GiveBack()
    ensures Rest(a, ops + q)
  {
    hide P.PortSection, P.Notify, GiveBack;
    Empty(ops);
  }

  // ----- where a step leads -----

  lemma FindRest(w: World, t: Tid, c: Choice, q: L.Path)
    requires t in w.acts && w.acts[t].DeleteFind? && Follows(Where(Next(w, Move(t, c)), t), q)
    ensures Rest(w.acts[t], P.Section(true, []) + q)
  {
    hide P.Section, P.Read, P.Stop, ProcStep;
    var b := Where(Next(w, Move(t, c)), t);
    Empty(P.Section(true, []));
    if b.Some? {
      var u := b.value.u;
      var claimed, r :| StoppedRest(u, ToUnregister, r) && q == P.Stop(u, claimed) + r;
      Assoc(P.Stop(u, claimed), P.Read(u), P.Section(false, []));
      assert P.Section(true, []) + q == P.Delete(u, true, claimed);
    } else {
      assert P.Section(true, []) + q == P.Delete(0, false, false);
    }
  }

  lemma MoveRest(w: World, t: Tid, c: Choice, q: L.Path)
    requires Inv(w) && Enabled(w, Move(t, c)) && Follows(Where(Next(w, Move(t, c)), t), q)
    ensures Rest(w.acts[t], Ops(w, Move(t, c), t) + q)
  {
    hide Inv, PointOK, FieldsOK, AllFilled, Local, Advance, ProcStep, Rest, PointOps, P.Notify, P.Section;
    var a := w.acts[t];
    if a.Notify? {
      Empty(P.Notify);
      Notified();
    } else if a.DeleteFind? {
      FindRest(w, t, c, q);
    } else {
      Facts(w, t, a.u);
      var p := w.procs[a.u];
      if Touches(a) {
        TouchLeads(w, t, a, p, c);
        TouchRest(w, a, p, t, c, q);
      } else {
        PointIsAdvance(w, t, a, p, c);
        AdvanceLeads(w, t, a.u, Local(a, p, t, See(w, a, p, c)));
        LocalRest(w, a, p, t, c, q);
      }
    }
  }

  lemma Notified()
    ensures Rest(Notify, P.Notify)
  {
  }

  // ----- whole runs -----

  /** What t does from step i on begins what is left of its path, and is all of it once t is gone. */
  lemma {:induction false} FollowsRest(ws: seq<World>, ls: seq<Label>, t: Tid, i: nat, k: nat, q: L.Path)
    requires IsRun(ws, ls) && i <= k <= |ls| < |ws| && t < ws[i].nextTid && Follows(Where(ws[k], t), q)
    ensures Follows(Where(ws[i], t), Trace(ws, ls, t, i, k) + q)
    decreases k - i
  {
    hide Inv, Enabled, Next, IsRun, Rest, PointOps, Ops;
    if i == k {
      Empty(q);
    } else {
      var w, l := ws[i], ls[i];
      RunStep(ws, ls, i);
      RunInv(ws, ls, i);
      if t !in w.acts { Births(w, l, t); } else { KeepsCounting(w, l); }
      FollowsRest(ws, ls, t, i + 1, k, q);
      var r := Trace(ws, ls, t, i + 1, k) + q;
      Assoc(Ops(w, l, t), Trace(ws, ls, t, i + 1, k), q);
      Empty(r);
      if t in w.acts && l.Move? && l.t == t {
        assert l == Move(t, l.c);
        MoveRest(w, t, l.c, r);
      } else {
        NoOps(w, l, t);
        if t in w.acts { StaysPut(w, l, t); }
      }
    }
  }

  lemma NoOps(w: World, l: Label, t: Tid)
    requires !(l.Move? && l.t == t && t in w.acts)
    ensures Ops(w, l, t) == []
  {
  }

  /** The paths of the call or goroutine that begins with a. */
  ghost predicate IsPathOf(a: Act, q: L.Path) {
    match a
    case CreateRegister(u) => exists registered, ports, ok :: q == P.Create(u, registered, ports, ok)
    case DeleteFind(_, _) => exists u, found, claimed :: q == P.Delete(u, found, claimed)
    case UnregPoll(u, _) => exists n: nat, stopped, removed :: q == P.Unregister(u, n, stopped, removed)
    case ReplaceInit(u) =>
      exists o, end, ports, n: nat, claimed, claimedOld, released :: q == P.Replace(u, o, end, ports, n, claimed, claimedOld, released)
    case StopperCheck(u, _, _) => exists hasCmd, live, n: nat, kill :: q == P.Stopper(u, hasCmd, live, n, kill)
    case RunLaunch(u) => q == P.RunGoroutine(u)
    case ReadyWait(u) => exists healthy, stopped, claimed :: q == P.ReadyGoroutine(u, healthy, stopped, claimed)
    case _ => false
  }

  lemma PathsAreListed(a: Act, q: L.Path)
    requires IsPathOf(a, q)
    ensures P.IsManagerPath(q) && L.Disciplined(q) && L.OnlyNotifies(q)
  {
    hide P.Create, P.Delete, P.Unregister, P.Replace, P.Stopper, P.RunGoroutine, P.ReadyGoroutine, L.Disciplined, L.OnlyNotifies;
    P.ManagerPathsClean(q);
  }

  /** A create or replace call may end with a read that only makes its answer. */
  ghost predicate IsAnswer(a: Act, q: L.Path) {
    q == [] || ((a.CreateRegister? || a.ReplaceInit?) && exists u :: q == P.Read(u))
  }

  ghost predicate IsCallPath(a: Act, q: L.Path) { exists answer :: IsAnswer(a, answer) && IsPathOf(a, q + answer) }

  lemma CallPath(a: Act, q: L.Path, answer: L.Path)
    requires IsAnswer(a, answer) && IsPathOf(a, q + answer)
    ensures IsCallPath(a, q)
  {
    hide IsAnswer, IsPathOf;
  }

  lemma CreatePath(u: Uuid, q: L.Path)
    requires Rest(CreateRegister(u), q)
    ensures IsCallPath(CreateRegister(u), q)
  {
    hide P.PortSection, P.Notify, P.Start, P.Read, IsCallPath;
    var ports :| q == P.PortSection(ports) || exists ok :: q == P.PortSection(ports) + (P.Notify + StartedRest(u, ok));
    if q == P.PortSection(ports) {
      Empty(q);
      assert q + [] == P.Create(u, false, ports, true);
      CallPath(CreateRegister(u), q, []);
    } else {
      var ok :| q == P.PortSection(ports) + (P.Notify + StartedRest(u, ok));
      CreateWhole(u, ports, ok);
      CallPath(CreateRegister(u), q, P.Read(u));
    }
  }

  lemma CreateWhole(u: Uuid, ports: bool, ok: bool)
    ensures P.PortSection(ports) + (P.Notify + StartedRest(u, ok)) + P.Read(u) == P.Create(u, true, ports, ok)
  {
    hide P.PortSection, P.Notify, P.Start, P.Read;
    var last := if ok then [] else P.Notify;
    Assoc(P.Notify, P.Start(u, ok), last);
    Assoc(P.PortSection(ports), P.Notify + StartedRest(u, ok), P.Read(u));
  }

  lemma ReplacePath(u: Uuid, q: L.Path)
    requires Rest(ReplaceInit(u), q)
    ensures IsCallPath(ReplaceInit(u), q)
  {
    hide P.PortSection, ReplaceRest, IsCallPath;
    var ports :| q == P.PortSection(ports) || exists o, r :: ReplaceRest(u, o, r) && q == P.PortSection(ports) + r;
    if q == P.PortSection(ports) {
      Empty(q);
      IsReplace(u, 0, P.Refused, ports, 0, false, false, false);
      CallPath(ReplaceInit(u), q, []);
    } else {
      var o, r :| ReplaceRest(u, o, r) && q == P.PortSection(ports) + r;
      ReplaceWhole(u, o, ports, r);
    }
  }

  lemma IsReplace(u: Uuid, o: Uuid, end: P.ReplaceEnd, ports: bool, polls: nat, claimed: bool, claimedOld: bool, released: bool)
    ensures IsPathOf(ReplaceInit(u), P.Replace(u, o, end, ports, polls, claimed, claimedOld, released))
    ensures end.Refused? ==> P.Replace(u, o, end, ports, polls, claimed, claimedOld, released) == P.PortSection(ports)
  {
    hide P.PortSection, P.Start, P.Repeat, P.Read, P.Stop, P.Cleanup, P.Section;
    Empty(P.PortSection(ports));
  }

  lemma ReplaceWhole(u: Uuid, o: Uuid, ports: bool, r: L.Path)
    requires ReplaceRest(u, o, r)
    ensures IsCallPath(ReplaceInit(u), P.PortSection(ports) + r)
  {
    hide P.PortSection, P.Start, P.Repeat, P.Read, P.Stop, P.Cleanup, P.Section, P.Under, IsPathOf, IsCallPath, PollRest;
    var s := P.PortSection(ports);
    if r == GiveBack() {
      Assoc(s, r, P.Read(o));
      IsReplace(u, o, P.SameBinary, ports, 0, false, false, false);
      CallPath(ReplaceInit(u), s + r, P.Read(o));
    } else if claimed :| r == P.Start(u, false) + P.Cleanup(u, claimed) {
      Empty(s + r);
      IsReplace(u, o, P.NotStarted, ports, 0, claimed, false, false);
      CallPath(ReplaceInit(u), s + r, []);
    } else {
      var q :| PollRest(u, o, q) && r == P.Start(u, true) + q;
      PolledWhole(u, o, ports, q);
    }
  }

  lemma PolledWhole(u: Uuid, o: Uuid, ports: bool, q: L.Path)
    requires PollRest(u, o, q)
    ensures IsCallPath(ReplaceInit(u), P.PortSection(ports) + (P.Start(u, true) + q))
  {
    hide P.PortSection, P.Start, P.Repeat, P.Read, P.Stop, P.Cleanup, P.Section, IsPathOf, IsCallPath, CommitRest;
    var path := P.PortSection(ports) + (P.Start(u, true) + q);
    if n: nat, claimed :| q == P.Repeat(P.Read(u), n) + P.Cleanup(u, claimed) {
      Assoc(P.Start(u, true), P.Repeat(P.Read(u), n), P.Cleanup(u, claimed));
      Empty(path);
      IsReplace(u, o, P.Failed, ports, n, claimed, false, false);
      CallPath(ReplaceInit(u), path, []);
    } else {
      var n: nat, claimedOld, r :| CommitRest(u, r) && q == P.Repeat(P.Read(u), n) + (P.Stop(o, claimedOld) + r);
      Assoc(P.Start(u, true), P.Repeat(P.Read(u), n), P.Stop(o, claimedOld) + r);
      Assoc(P.Start(u, true) + P.Repeat(P.Read(u), n), P.Stop(o, claimedOld), r);
      CommittedWhole(u, o, ports, n, claimedOld, r);
    }
  }

  lemma CommittedWhole(u: Uuid, o: Uuid, ports: bool, n: nat, claimedOld: bool, r: L.Path)
    requires CommitRest(u, r)
    ensures IsCallPath(ReplaceInit(u), P.PortSection(ports) + (P.Start(u, true) + P.Repeat(P.Read(u), n) + P.Stop(o, claimedOld) + r))
  {
    hide P.PortSection, P.Start, P.Repeat, P.Read, P.Stop, P.Cleanup, P.Section, P.Notify, IsPathOf, IsCallPath;
    var s, m := P.PortSection(ports), P.Start(u, true) + P.Repeat(P.Read(u), n) + P.Stop(o, claimedOld);
    if released :| r == P.PortSection(released) + P.Notify {
      Assoc(m, P.PortSection(released), P.Notify);
      Assoc(s, m + r, P.Read(u));
      IsReplace(u, o, P.Replaced, ports, n, false, claimedOld, released);
      CallPath(ReplaceInit(u), s + (m + r), P.Read(u));
    } else {
      var claimed :| r == P.Section(false, []) + P.Cleanup(u, claimed);
      Assoc(m, P.Section(false, []), P.Cleanup(u, claimed));
      Empty(s + (m + r));
      IsReplace(u, o, P.Changed, ports, n, claimed, claimedOld, false);
      CallPath(ReplaceInit(u), s + (m + r), []);
    }
  }

  lemma EntryPath(a: Act, q: L.Path)
    requires Entry(a) && Rest(a, q)
    ensures IsCallPath(a, q)
  {
    hide IsCallPath, P.Create, P.Delete, P.Unregister, P.Replace, P.Stopper, P.RunGoroutine, P.ReadyGoroutine;
    if a.CreateRegister? { CreatePath(a.u, q); }
    else if a.ReplaceInit? { ReplacePath(a.u, q); }
    else {
      Empty(q);
      CallPath(a, q, []);
    }
  }

  lemma SomeCommitRest(u: Uuid) returns (q: L.Path)
    ensures CommitRest(u, q)
  {
    q := P.PortSection(false) + P.Notify;
  }

  lemma SomePollRest(u: Uuid, o: Uuid) returns (q: L.Path)
    ensures PollRest(u, o, q)
  {
    q := P.Repeat(P.Read(u), 0) + P.Cleanup(u, false);
  }

  lemma SomeStartRest(u: Uuid, o: Uuid) returns (q: L.Path)
    ensures StartRest(u, o, q)
  {
    q := P.Start(u, false) + P.Cleanup(u, false);
  }

  lemma SomeStoppedRest(u: Uuid, after: After) returns (q: L.Path)
    ensures StoppedRest(u, after, q)
  {
    match after
    case ToUnregister => q := P.Read(u) + P.Section(false, []);
    case ToCommit(n) => q := SomeCommitRest(n);
    case ToRelease => q := GiveBack();
    case Return => q := [];
  }

  lemma SomeStopRest(a: Act) returns (q: L.Path)
    requires InStop(a)
    ensures Rest(a, q)
  {
    hide StoppedRest, P.Stop, P.Read, P.Notify;
    var r := SomeStoppedRest(a.u, a.after);
    q := if a.StopClaim? then P.Stop(a.u, false) + r
         else if a.StopSend? then P.Notify + (P.Read(a.u) + r)
         else if a.StopLoad? then P.Read(a.u) + r else r;
  }

  lemma SomeReplaceRest(a: Act) returns (q: L.Path)
    requires a.ReplaceInit? || a.ReplaceCompare? || a.ReplaceStart? || a.ReplacePoll? || a.ReplaceCommit?
    ensures Rest(a, q)
  {
    hide P.PortSection, StartRest, PollRest, CommitRest;
    if a.ReplaceInit? { q := P.PortSection(false); }
    else if a.ReplaceCommit? { q := SomeCommitRest(a.u); }
    else if a.ReplacePoll? { q := SomePollRest(a.u, a.o); }
    else { q := SomeStartRest(a.u, a.o); }
  }

  lemma SomeCallRest(a: Act) returns (q: L.Path)
    requires a.CreateRegister? || a.CreateNotify? || a.CreateStart? || a.DeleteFind? || a.DeleteUnregister? || a.UnregPoll?
    ensures Rest(a, q)
  {
    hide P.PortSection, P.Notify, P.Read, P.Section, StartedRest, P.Delete, P.Unregister;
    match a
    case CreateRegister(u) => q := P.PortSection(false);
    case CreateNotify(u) => q := P.Notify + StartedRest(u, true);
    case CreateStart(u) => q := StartedRest(u, true);
    case DeleteFind(_, _) => q := P.Delete(0, false, false);
    case DeleteUnregister(u) => q := P.Read(u) + P.Section(false, []);
    case UnregPoll(u, _) => q := P.Unregister(u, 0, false, false);
  }

  lemma SomeLateRest(a: Act) returns (q: L.Path)
    requires a.UnregRecheck? || a.UnregRemove? || a.ReplaceDropLog? || a.ReplaceDropPorts? || a.ReplaceRelease? || a.Notify?
    ensures Rest(a, q)
  {
    hide P.PortSection, P.Notify, P.Read, VerdictRest, GiveBack;
    match a
    case UnregRecheck(u) => q := P.Read(u) + VerdictRest(false, false);
    case UnregRemove(u) => q := P.PortSection(false) + P.Notify;
    case Notify => q := P.Notify;
    case _ => q := GiveBack();
  }

  lemma SomeStopperRest(a: Act) returns (q: L.Path)
    requires InStopper(a)
    ensures Rest(a, q)
  {
    hide KillRest, P.Stopper, Signal;
    q := if a.StopperCheck? then P.Stopper(a.u, false, false, 0, false)
         else if a.StopperPoll? then KillRest(a.u, 0, false)
         else if a.StopperKill? then Signal(a.u) else [];
  }

  lemma SomeStartedRest(a: Act) returns (q: L.Path)
    requires a.RunLaunch? || a.RunWait? || a.RunSet? || a.ReadyWait? || a.ReadySet? || a.ReadyCheck?
    ensures Rest(a, q)
  {
    hide P.Notify, CheckRest, P.RunGoroutine, P.ReadyGoroutine, P.Write;
    q := if a.ReadyWait? then P.ReadyGoroutine(a.u, true, true, true)
         else if a.ReadySet? then P.Write(a.u) + P.Notify
         else if a.ReadyCheck? then CheckRest(a.u, true, false) else P.RunGoroutine(a.u);
  }

  /** Wherever an activity stands, there is a way on. */
  lemma SomeRest(a: Act) returns (q: L.Path)
    ensures Rest(a, q)
  {
    hide Rest;
    if InStop(a) { q := SomeStopRest(a); }
    else if a.ReplaceInit? || a.ReplaceCompare? || a.ReplaceStart? || a.ReplacePoll? || a.ReplaceCommit? { q := SomeReplaceRest(a); }
    else if a.CreateRegister? || a.CreateNotify? || a.CreateStart? || a.DeleteFind? || a.DeleteUnregister? || a.UnregPoll? {
      q := SomeCallRest(a);
    } else if a.UnregRecheck? || a.UnregRemove? || a.ReplaceDropLog? || a.ReplaceDropPorts? || a.ReplaceRelease? || a.Notify? {
      q := SomeLateRest(a);
    } else if a.CloseLog? {
      q := [];
      LogClosed(a);
    } else if InStopper(a) {
      q := SomeStopperRest(a);
    } else {
      q := SomeStartedRest(a);
    }
  }

  lemma LogClosed(a: Act)
    requires a.CloseLog?
    ensures Rest(a, [])
  {
  }

  /** Over any run, what a call or goroutine has done with locks and channels since the step that
      began it, however its steps were interleaved with others', begins one of its paths in
      LockPaths; once it has ended it is one, but for the read that makes the answer. */
  lemma CallsFollowPaths(ws: seq<World>, ls: seq<Label>, t: Tid, i: nat, k: nat) returns (q: L.Path)
    requires IsRun(ws, ls) && i < k <= |ls| < |ws| && t !in ws[i].acts && t in ws[i + 1].acts
    ensures IsCallPath(ws[i + 1].acts[t], Trace(ws, ls, t, i + 1, k) + q)
    ensures t !in ws[k].acts ==> q == []
  {
    hide Inv, Next, Enabled, IsRun, Rest, Entry, IsCallPath, Trace;
    RunStep(ws, ls, i);
    RunInv(ws, ls, i + 1);
    Births(ws[i], ls[i], t);
    Numbered(ws[i + 1], t);
    q := [];
    if t in ws[k].acts { q := SomeRest(ws[k].acts[t]); }
    FollowsRest(ws, ls, t, i + 1, k, q);
    EntryPath(ws[i + 1].acts[t], Trace(ws, ls, t, i + 1, k) + q);
  }

  // ----- what is written under which lock -----

  predicate Takes(q: L.Path, l: L.Lock) { L.Acquire(l, false) in q }

  lemma SectionsTake(b: bool, u: Uuid)
    ensures Takes(P.PortSection(b), L.ManagerLock) && (b ==> Takes(P.PortSection(b), L.BitmapLock))
    ensures Takes(GiveBack(), L.BitmapLock)
    ensures Takes(P.Write(u), L.ProcessLock(u)) && Takes(P.Start(u, b), L.ProcessLock(u))
  {
    var q := P.PortSection(b);
    assert q[0] == L.Acquire(L.ManagerLock, false);
    assert b ==> q[1] == L.Acquire(L.BitmapLock, false);
    assert GiveBack()[0] == L.Acquire(L.BitmapLock, false);
    assert P.Write(u)[0] == L.Acquire(L.ProcessLock(u), false);
    assert P.Start(u, b)[0] == L.Acquire(L.ProcessLock(u), false);
  }

  /** The state, the deletion time and the command that other goroutines look at. */
  predicate SameShared(p: Proc, q: Proc) { q.state == p.state && q.deletedAt == p.deletedAt && q.cmd.NoCmd? == p.cmd.NoCmd? }

  lemma LocalShared(procs: map<Uuid, Proc>, a: Act, p: Proc, t: Tid, s: Seen)
    requires !a.Notify? && !a.DeleteFind? && a.u in procs && p == procs[a.u] && PointOK(procs, t, a, p) && FieldsOK(p)
    requires !a.CreateStart? && !a.ReplaceStart? && !a.StopClaim? && !a.RunSet? && !a.ReadySet? && !a.StopperWrite?
    ensures SameShared(p, Local(a, p, t, s).p)
  {
    hide AfterOK, Replacing, InStop, Start, StopStep;
  }

  /** The table is written under the manager's lock, the bitmap under its own. */
  lemma TouchWritesLocked(w: World, t: Tid, a: Act, p: Proc, c: Choice)
    requires Touches(a) && a.u in w.procs && p == w.procs[a.u] && FieldsOK(p)
    requires a.CreateRegister? || a.ReplaceInit? ==> (c.ok ==> CanAllocate(w, p, c))
    ensures ProcStep(w, t, a, p, c).table != w.table ==> Takes(PointOps(w, a, p, c), L.ManagerLock)
    ensures ProcStep(w, t, a, p, c).free != w.free ==> Takes(PointOps(w, a, p, c), L.BitmapLock)
  {
    hide ProcStep, Drop, Released, Takes, P.PortSection, GiveBack;
    TouchStep(w, t, a, p, c);
    Dropping(w, a.u);
    SectionsTake(true, a.u);
    SectionsTake(false, a.u);
    if a.ReplaceCommit? { Dropping(w, a.o); }
    if a.CreateRegister? || a.ReplaceInit? { NoPortsAsked(w, p, c); }
  }

  lemma NoPortsAsked(w: World, p: Proc, c: Choice)
    ensures c.ok && CanAllocate(w, p, c) && !Asks(p) ==> w.free - PortsOf(Allocated(p, c)) == w.free
  {
  }

  lemma StartTakes(a: Act, w: World, p: Proc, c: Choice)
    requires a.CreateStart? || a.ReplaceStart? || a.StopClaim? || a.RunSet? || a.ReadySet?
    ensures Takes(PointOps(w, a, p, c), L.ProcessLock(a.u))
  {
    hide P.Write, P.Start, Takes;
    SectionsTake(c.ok, a.u);
  }

  /** A step that changes the table takes the manager's lock alone, and one that changes the bitmap
      takes the bitmap's. */
  lemma TableAndBitmapAreLocked(w: World, l: Label)
    requires Inv(w) && Enabled(w, l)
    ensures Next(w, l).table != w.table ==> l.Move? && Takes(Ops(w, l, l.t), L.ManagerLock)
    ensures Next(w, l).free != w.free ==> l.Move? && Takes(Ops(w, l, l.t), L.BitmapLock)
  {
    hide Inv, ProcStep, FindStep, PointOK, FieldsOK, AllFilled, Takes, PointOps;
    if l.Move? && !w.acts[l.t].Notify? && !w.acts[l.t].DeleteFind? {
      var a := w.acts[l.t];
      Facts(w, l.t, a.u);
      if Touches(a) {
        TouchWritesLocked(w, l.t, a, w.procs[a.u], l.c);
      } else {
        QuietFree(w, l);
        PointWrites(w, l.t, a, w.procs[a.u], l.c);
      }
    } else {
      OthersWrite(w, l);
      QuietFree(w, l);
    }
  }

  /** A step that changes a process's state, deletion time or command takes that process's lock alone.
      The one exception is the stop goroutine's write of Stopped, which takes no lock. */
  lemma ProcessIsLocked(w: World, l: Label, u: Uuid)
    requires Inv(w) && Enabled(w, l) && u in w.procs
    ensures u in Next(w, l).procs
    ensures !SameShared(w.procs[u], Next(w, l).procs[u]) ==>
              && l.Move? && l.t in w.acts
              && (Takes(Ops(w, l, l.t), L.ProcessLock(u)) || w.acts[l.t] == StopperWrite(u))
  {
    hide Inv, ProcStep, FindStep, PointOK, FieldsOK, AllFilled, Takes, PointOps, Local, SameShared, Handed, Advance;
    Unchanged(w.procs[u]);
    if l.Move? && !w.acts[l.t].Notify? && !w.acts[l.t].DeleteFind? {
      var a := w.acts[l.t];
      var p := w.procs[u];
      Facts(w, l.t, a.u);
      if Touches(a) {
        TouchHands(w, l.t, a, l.c);
        HandedShared(p, ProcStep(w, l.t, a, w.procs[a.u], l.c).procs[u]);
      } else {
        PassedOn(w, l.t, a, w.procs[a.u], l.c);
        if a.u == u {
          if a.CreateStart? || a.ReplaceStart? || a.StopClaim? || a.RunSet? || a.ReadySet? { StartTakes(a, w, p, l.c); }
          else if !a.StopperWrite? { LocalShared(w.procs, a, p, l.t, See(w, a, p, l.c)); }
        }
      }
    } else {
      FindKeeps(w, l);
    }
  }

  lemma Unchanged(p: Proc)
    ensures SameShared(p, p)
  {
  }

  lemma HandedShared(p: Proc, q: Proc)
    requires q == p || Handed(p, q)
    ensures SameShared(p, q)
  {
  }
}
