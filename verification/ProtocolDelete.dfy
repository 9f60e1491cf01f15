/** One ProcessDelete of a started process removes it, whatever else goes on meanwhile. */
module ProtocolDelete {
  import opened Wrappers
  import opened PortLedger
  import opened Protocol
  import opened ProtocolInv
  import opened ProtocolSteps
  import opened ProtocolPreserve
  import opened ProtocolTheorems
  import opened ProtocolActs

  // ----- following one delete through a run -----

  /** The activity that carries the delete of u on: the call itself, then the unregister goroutine;
      None once it has ended. */
  function NextCarrier(w: World, c: Option<Tid>, l: Label, u: Uuid): Option<Tid> {
    if c.None? || c.value !in w.acts || u !in w.procs || !l.Move? || l.t != c.value then c
    else
      match w.acts[c.value]
      case DeleteFind(name, _) => if Holds(w.table, name, u) then c else None
      case DeleteUnregister(_) => if Listed(w, u) then Some(w.nextTid) else None
      case UnregRecheck(_) => if Terminal(w.procs[u].state) then c else None
      case UnregRemove(_) => None
      case _ => c
  }

  /** The call of step i, some steps later. */
  ghost function CarrierAt(ws: seq<World>, ls: seq<Label>, u: Uuid, i: nat, k: nat): Option<Tid>
    requires i < k <= |ls| < |ws|
    decreases k
  {
    if k == i + 1 then Some(ws[i].nextTid) else NextCarrier(ws[k - 1], CarrierAt(ws, ls, u, i, k - 1), ls[k - 1], u)
  }

  predicate CarrierMoves(c: Option<Tid>, l: Label) { c.Some? && l.Move? && l.t == c.value }

  /** How many steps after step i, up to step k, were the carrier's. */
  ghost function CarrierTurns(ws: seq<World>, ls: seq<Label>, u: Uuid, i: nat, k: nat): nat
    requires i < k <= |ls| < |ws|
    decreases k
  {
    if k == i + 1 then 0
    else CarrierTurns(ws, ls, u, i, k - 1) + if CarrierMoves(CarrierAt(ws, ls, u, i, k - 1), ls[k - 1]) then 1 else 0
  }

  /** Whoever claimed the graceful stop of u has not yet had his say. */
  ghost predicate Settling(w: World, u: Uuid) {
    && u in w.procs && w.procs[u].claimer.Some? && w.procs[u].claimer.value in w.acts
    && Settles(w.acts[w.procs[u].claimer.value], u)
  }

  /** u's run goroutine has not yet reaped its command and written the outcome. */
  predicate Executing(w: World, u: Uuid) { u in w.procs && RunPending(w.procs[u]) }

  /** The unregister goroutine does not give its final verdict while the stop is settling or the
      run goroutine has not finished. */
  ghost predicate FairStep(w: World, c: Option<Tid>, l: Label, u: Uuid) {
    CarrierMoves(c, l) && c.value in w.acts && w.acts[c.value].UnregRecheck? ==> !Settling(w, u) && !Executing(w, u)
  }

  ghost predicate Fair(ws: seq<World>, ls: seq<Label>, u: Uuid, i: nat, k: nat)
    requires i < k <= |ls| < |ws|
  {
    forall j :: i < j < k ==> FairStep(ws[j], CarrierAt(ws, ls, u, i, j), ls[j], u)
  }

  // ----- where the delete stands -----

  predicate Carries(a: Act, u: Uuid, p: Proc) {
    || (a.DeleteFind? && a.name == p.name && (a.want.None? || a.want.value == u))
    || (InDelete(a, u) && (a.UnregPoll? ==> a.i <= WAIT_COUNT)
        && (!a.StopClaim? ==> !Active(p.state)) && (a.UnregRemove? ==> Terminal(p.state)))
  }

  predicate OnCourse(w: World, c: Option<Tid>, u: Uuid) {
    && u in w.procs && Reported(w.procs[u]) && Published(w.procs[u])
    && (c.None? ==> w.procs[u].stage.Gone?)
    && (c.Some? ==> c.value in w.acts && Carries(w.acts[c.value], u, w.procs[u]))
  }

  /** What the carrier still has to do. */
  function Rank(a: Act): nat {
    match a
    case DeleteFind(_, _) => 608
    case StopClaim(_, _, _) => 607
    case StopSend(_, _, _) => 606
    case StopLoad(_, _, _) => 605
    case StopClose(_, _) => 605
    case DeleteUnregister(_) => 604
    case UnregPoll(_, i) => if i <= WAIT_COUNT then WAIT_COUNT + 3 - i else 0
    case UnregRecheck(_) => 2
    case _ => 1
  }

  function RankAt(w: World, c: Option<Tid>): nat { if c.Some? && c.value in w.acts then Rank(w.acts[c.value]) else 0 }

  // ----- one step -----

  lemma CarriesStill(a: Act, u: Uuid, p: Proc, q: Proc)
    requires Carries(a, u, p) && q.name == p.name
    requires (Terminal(p.state) ==> Terminal(q.state)) && (!Active(p.state) ==> !Active(q.state))
    ensures Carries(a, u, q)
  {
  }

  /** What a step does to a process that was started and reported. */
  lemma ProcessStays(w: World, l: Label, u: Uuid)
    requires Inv(w) && Enabled(w, l) && u in w.procs && Reported(w.procs[u])
    ensures u in Next(w, l).procs && Reported(Next(w, l).procs[u])
    ensures var p, q := w.procs[u], Next(w, l).procs[u];
            && q.name == p.name && (Published(p) ==> Published(q)) && (p.stage.Gone? ==> q.stage.Gone?)
            && (Terminal(p.state) ==> Terminal(q.state)) && (!Active(p.state) ==> !Active(q.state))
  {
    hide Next, ActsOK, TableOK, LedgerOK, ActOK;
    StepLater(w, l, u);
    NextInv(w, l);
    ReportedStays(w.procs[u], Next(w, l).procs[u]);
  }

  // ----- the carrier's own turns -----

  lemma FindTurn(w: World, u: Uuid, t: Tid, c: Choice)
    requires Inv(w) && OnCourse(w, Some(t), u) && w.acts[t].DeleteFind?
    ensures var w', c' := Next(w, Move(t, c)), NextCarrier(w, Some(t), Move(t, c), u);
            w'.procs == w.procs && OnCourse(w', c', u) && RankAt(w', c') < RankAt(w, Some(t))
  {
    hide ActsOK, ProcsOK, LedgerOK, ProcStep;
  }

  lemma RemoveTurn(w: World, u: Uuid, t: Tid, c: Choice)
    requires Inv(w) && OnCourse(w, Some(t), u) && w.acts[t].UnregRemove?
    ensures u in Next(w, Move(t, c)).procs && Next(w, Move(t, c)).procs[u].stage.Gone?
  {
    hide ActsOK, ProcsOK, LedgerOK, ProcStep, Drop;
    TouchStep(w, t, w.acts[t], w.procs[u], c);
    Dropping(w, u);
  }

  /** A turn of the carrier at one of its other points. */
  lemma LocalTurn(w: World, u: Uuid, t: Tid, s: Seen, a: Act, p: Proc)
    requires Carries(a, u, p) && !a.DeleteFind? && !a.UnregRemove? && Reported(p)
    requires a.UnregRecheck? ==> !p.state.Stopping?
    ensures var e := Local(a, p, t, s);
            && (a.DeleteUnregister? ==>
                  if s.listed then e.spawn == One(UnregPoll(u, 0)) && e.p == p else e.p == p)
            && (!a.DeleteUnregister? ==>
                  e.next.Some? && Carries(e.next.value, u, e.p) && Rank(e.next.value) < Rank(a))
            && (a.UnregRecheck? ==> Terminal(p.state))
  {
    hide Start;
  }

  /** The step is a verdict of the unregister goroutine that the process has not stopped. */
  predicate GivesUp(w: World, c: Option<Tid>, l: Label, u: Uuid) {
    && CarrierMoves(c, l) && c.value in w.acts && w.acts[c.value].UnregRecheck?
    && u in w.procs && !Terminal(w.procs[u].state)
  }

  /** At a fair recheck nobody is left to settle the process, so it has stopped. */
  lemma RecheckDecides(w: World, u: Uuid, c: Option<Tid>, l: Label)
    requires Inv(w) && OnCourse(w, c, u) && FairStep(w, c, l, u)
    ensures !GivesUp(w, c, l, u)
  {
    hide ActsOK, TableOK, LedgerOK, Settles;
    assert Filled(w.acts, Settler, u, w.procs[u]);
  }

  lemma PointTurn(w: World, u: Uuid, t: Tid, c: Choice)
    requires Inv(w) && OnCourse(w, Some(t), u) && !GivesUp(w, Some(t), Move(t, c), u)
    requires !w.acts[t].DeleteFind? && !w.acts[t].UnregRemove?
    ensures var w', c' := Next(w, Move(t, c)), NextCarrier(w, Some(t), Move(t, c), u);
            && u in w'.procs && RankAt(w', c') < RankAt(w, Some(t))
            && (c'.None? ==> w'.procs[u].stage.Gone?)
            && (c'.Some? ==> c'.value in w'.acts && Carries(w'.acts[c'.value], u, w'.procs[u]))
  {
    hide Inv, Local, Reported, Settling, Next, Carries, Rank;
    CarrierPoint(w, u, t);
    Numbered(w, t);
    var a, p := w.acts[t], w.procs[u];
    var s := See(w, a, p, c);
    LocalTurn(w, u, t, s, a, p);
    TurnIs(w, t, u, c);
    AfterTurn(w, t, u, Local(a, p, t, s));
    if a.DeleteUnregister? { Spawned(w, u, t); }
  }

  lemma CarrierPoint(w: World, u: Uuid, t: Tid)
    requires OnCourse(w, Some(t), u) && !w.acts[t].DeleteFind? && !w.acts[t].UnregRemove?
    ensures var a := w.acts[t];
            && !a.Notify? && a.u == u && !Touches(a)
            && (a.UnregRecheck? ==> a == UnregRecheck(u)) && (a.DeleteUnregister? ==> a == DeleteUnregister(u))
  {
  }

  lemma TurnIs(w: World, t: Tid, u: Uuid, c: Choice)
    requires t in w.acts && u in w.procs && w.acts[t] != Notify && !w.acts[t].DeleteFind? && w.acts[t].u == u
    requires !Touches(w.acts[t])
    ensures Enabled(w, Move(t, c))
    ensures Next(w, Move(t, c)) == Advance(w, t, u, Local(w.acts[t], w.procs[u], t, See(w, w.acts[t], w.procs[u], c)))
  {
    hide Local, Advance;
  }

  lemma AfterTurn(w: World, t: Tid, u: Uuid, e: Effect)
    requires t in w.acts
    ensures var w' := Advance(w, t, u, e);
            && u in w'.procs && w'.procs[u] == e.p
            && (e.next.Some? && t < w.nextTid ==> t in w'.acts && w'.acts[t] == e.next.value)
            && (e.spawn.One? ==> w.nextTid in w'.acts && w'.acts[w.nextTid] == e.spawn.a)
  {
  }

  /** An unlisted process has left; the goroutine that is started otherwise carries on. */
  lemma Spawned(w: World, u: Uuid, t: Tid)
    requires Inv(w) && OnCourse(w, Some(t), u) && w.acts[t] == DeleteUnregister(u)
    ensures t < w.nextTid
    ensures !Listed(w, u) ==> w.procs[u].stage.Gone?
    ensures Carries(UnregPoll(u, 0), u, w.procs[u]) && Rank(UnregPoll(u, 0)) < Rank(DeleteUnregister(u))
  {
    hide ProcsOK, LedgerOK, ActOK;
  }

  /** Any step but a premature verdict keeps the delete on course, and a turn of the carrier uses
      up its work; a fair step gives no premature verdict. */
  lemma CourseStep(w: World, c: Option<Tid>, l: Label, u: Uuid)
    requires Inv(w) && Enabled(w, l) && OnCourse(w, c, u) && !GivesUp(w, c, l, u)
    ensures OnCourse(Next(w, l), NextCarrier(w, c, l, u), u)
    ensures RankAt(Next(w, l), NextCarrier(w, c, l, u)) + (if CarrierMoves(c, l) then 1 else 0) <= RankAt(w, c)
  {
    hide Inv, Next, Enabled, Reported, Settling, Carries, Rank;
    ProcessStays(w, l, u);
    if CarrierMoves(c, l) {
      Numbered(w, c.value);
      var a := w.acts[c.value];
      assert l == Move(c.value, l.c);
      if a.DeleteFind? {
        FindTurn(w, u, c.value, l.c);
      } else if a.UnregRemove? {
        RemoveTurn(w, u, c.value, l.c);
        assert Rank(a) >= 1 by { Positive(a); }
      } else {
        PointTurn(w, u, c.value, l.c);
      }
    } else if c.Some? {
      StaysPut(w, l, c.value);
      CarriesStill(w.acts[c.value], u, w.procs[u], Next(w, l).procs[u]);
    }
  }

  lemma Positive(a: Act)
    requires a.UnregRemove?
    ensures Rank(a) >= 1
  {
  }

  // ----- whole runs -----

  lemma DeleteBegins(w: World, u: Uuid, n: Name, want: Option<Uuid>)
    requires Inv(w) && Listed(w, u) && w.procs[u].name == n && (want.None? || want.value == u)
    requires Reported(w.procs[u])
    ensures var w' := Next(w, DeleteCall(n, want));
            OnCourse(w', Some(w.nextTid), u) && RankAt(w', Some(w.nextTid)) == 608
  {
    hide ProcsOK, LedgerOK, ActOK;
  }

  lemma {:induction false} CourseAlong(ws: seq<World>, ls: seq<Label>, u: Uuid, n: Name, want: Option<Uuid>, i: nat, k: nat)
    requires IsRun(ws, ls) && i < k <= |ls| && ls[i] == DeleteCall(n, want)
    requires Listed(ws[i], u) && ws[i].procs[u].name == n && (want.None? || want.value == u) && Reported(ws[i].procs[u])
    requires Fair(ws, ls, u, i, k)
    ensures OnCourse(ws[k], CarrierAt(ws, ls, u, i, k), u)
    ensures CarrierTurns(ws, ls, u, i, k) + RankAt(ws[k], CarrierAt(ws, ls, u, i, k)) <= 608
    decreases k
  {
    hide Inv, Next, Enabled, Reported, OnCourse, RankAt, Listed, IsRun, FairStep, NextCarrier, CarrierMoves;
    RunLength(ws, ls);
    RunInv(ws, ls, k - 1);
    RunStep(ws, ls, k - 1);
    if k == i + 1 {
      DeleteBegins(ws[i], u, n, want);
    } else {
      CourseAlong(ws, ls, u, n, want, i, k - 1);
      RecheckDecides(ws[k - 1], u, CarrierAt(ws, ls, u, i, k - 1), ls[k - 1]);
      CourseStep(ws[k - 1], CarrierAt(ws, ls, u, i, k - 1), ls[k - 1], u);
    }
  }

  /** In a run in which u is listed first and gone later its ports were given back once. */
  lemma {:induction false} GivenBackBetween(ws: seq<World>, ls: seq<Label>, u: Uuid, i: nat, k: nat)
    requires IsRun(ws, ls) && i <= k <= |ls| && u in ws[i].procs && Holding(ws[i].procs[u])
    requires u in ws[k].procs && ws[k].procs[u].stage.Gone?
    ensures Releases(ws, ls, u, k) >= 1
    decreases k
  {
    hide Inv, Next, Enabled, GivesBack, IsInit;
    if i < k {
      RunInv(ws, ls, k - 1);
      RunStep(ws, ls, k - 1);
      RunLater(ws, ls, i, k - 1, u);
      if ws[k - 1].procs[u].stage.Gone? {
        GivenBackBetween(ws, ls, u, i, k - 1);
      } else {
        StillHeld(ws, ls, u, i, k - 1);
        GoneMeansGiven(ws[k - 1], ls[k - 1], u);
      }
    }
  }

  lemma {:induction false} StillHeld(ws: seq<World>, ls: seq<Label>, u: Uuid, i: nat, k: nat)
    requires IsRun(ws, ls) && i <= k < |ws| && u in ws[i].procs && Holding(ws[i].procs[u])
    ensures u in ws[k].procs && !ws[k].procs[u].stage.Opened?
    decreases k
  {
    hide Inv, Next, Enabled, IsInit;
    if i < k {
      StillHeld(ws, ls, u, i, k - 1);
      RunInv(ws, ls, k - 1);
      RunStep(ws, ls, k - 1);
      StepLater(ws[k - 1], ls[k - 1], u);
    }
  }

  /** ProcessDelete of a listed process that was started and whose readiness goroutine has had its
      say, its command live or not, in any run: calls arrive, other activities move and the clock
      advances at any moment. The delete takes at most 608 turns of its own; once it has ended the
      process is gone, out of the table, and its ports were given back exactly once; and until then
      its next turn is possible, and fair unless the stop or the command is still ending. */
  lemma DeleteCompletes(ws: seq<World>, ls: seq<Label>, u: Uuid, n: Name, want: Option<Uuid>, i: nat, k: nat)
    requires IsRun(ws, ls) && i < k <= |ls| && ls[i] == DeleteCall(n, want)
    requires Listed(ws[i], u) && ws[i].procs[u].name == n && (want.None? || want.value == u)
    requires Reported(ws[i].procs[u])
    requires Fair(ws, ls, u, i, k)
    ensures CarrierTurns(ws, ls, u, i, k) <= 608
    ensures var c := CarrierAt(ws, ls, u, i, k);
            if c.None? then
              && u in ws[k].procs && ws[k].procs[u].stage.Gone? && !Listed(ws[k], u)
              && Releases(ws, ls, u, k) == 1
            else
              && CarrierTurns(ws, ls, u, i, k) < 608 && c.value in ws[k].acts
              && forall o :: Enabled(ws[k], Move(c.value, o))
                             && (FairStep(ws[k], c, Move(c.value, o), u) || Settling(ws[k], u) || Executing(ws[k], u))
  {
    hide Inv, Next, Enabled, Fair, Reported, Settling, GivesBack, Carries, IsInit;
    CourseAlong(ws, ls, u, n, want, i, k);
    RunInv(ws, ls, k);
    RunInv(ws, ls, i);
    StageMeaning(ws[k], u);
    StageMeaning(ws[i], u);
    var c := CarrierAt(ws, ls, u, i, k);
    if c.None? {
      GivenBackBetween(ws, ls, u, i, k);
      ReleasedOnce(ws, ls, u, k);
    } else {
      CarrierEnabled(ws[k], u, c.value);
    }
  }

  lemma CarrierEnabled(w: World, u: Uuid, t: Tid)
    requires OnCourse(w, Some(t), u)
    ensures RankAt(w, Some(t)) >= 1 && forall o :: Enabled(w, Move(t, o))
  {
  }

  // ----- a stop settles -----

  function SettleRank(a: Act): nat {
    match a
    case StopSend(_, _, _) => 6
    case StopLoad(_, _, _) => 5
    case StopperCheck(_, _, _) => 4
    case StopperLook(_, again) => if again then 2 else 3
    case StopperWrite(_) => 1
    case _ => 0
  }

  lemma LocalClaimer(a: Act, p: Proc, t: Tid, s: Seen)
    requires !a.Notify? && !a.DeleteFind? && !Active(p.state)
    ensures Local(a, p, t, s).p.claimer == p.claimer || (p.claimer == Some(t) && a.StopLoad?)
  {
    hide Start, StopStep, Active, Local;
    LocalIs(a, p, t, s);
    if a.CreateStart? { StartClaimer(p, a.u, s, None, Notify); }
    else if a.ReplaceStart? { StartClaimer(p, a.u, s, Some(ReplacePoll(a.u, a.o, 0)), StopClaim(a.u, s.now, ToRelease)); }
    else if a.StopClaim? { StopClaimer(p, a.u, t, s.now, a.after); }
    else { PointClaimer(a, p, t, s); }
  }

  lemma LocalIs(a: Act, p: Proc, t: Tid, s: Seen)
    ensures a.CreateStart? ==> Local(a, p, t, s) == Start(p, a.u, s, None, Notify)
    ensures a.ReplaceStart? ==>
              Local(a, p, t, s) == Start(p, a.u, s, Some(ReplacePoll(a.u, a.o, 0)), StopClaim(a.u, s.now, ToRelease))
    ensures a.StopClaim? ==> Local(a, p, t, s) == StopStep(p, a.u, t, s.now, a.after)
  {
    hide Start, StopStep;
  }

  lemma PointClaimer(a: Act, p: Proc, t: Tid, s: Seen)
    requires !a.Notify? && !a.DeleteFind? && !a.CreateStart? && !a.ReplaceStart? && !a.StopClaim?
    ensures Local(a, p, t, s).p.claimer == p.claimer || (p.claimer == Some(t) && a.StopLoad?)
  {
    hide Start, StopStep, Resume;
  }

  lemma StartClaimer(p: Proc, u: Uuid, s: Seen, onOk: Option<Act>, onFail: Act)
    ensures Start(p, u, s, onOk, onFail).p.claimer == p.claimer
  {
  }

  lemma StopClaimer(p: Proc, u: Uuid, t: Tid, now: int, after: After)
    requires !Active(p.state)
    ensures StopStep(p, u, t, now, after).p.claimer == p.claimer
  {
  }

  lemma SettlerTurn(a: Act, p: Proc, t: Tid, s: Seen, u: Uuid)
    requires Settles(a, u) && !a.Notify? && p.claimer == Some(t)
    ensures var e := Local(a, p, t, s);
            if a.StopLoad? then
              e.p.claimer == Some(s.nextId) && e.spawn.One? && SettleRank(e.spawn.a) < SettleRank(a)
            else
              e.p.claimer == p.claimer && e.next.Some? && SettleRank(e.next.value) < SettleRank(a)
  {
    hide Start, StopStep;
  }

  /** Who is settling u, and how many turns he still needs at most. */
  function SettlesIn(w: World, u: Uuid): nat
    requires u in w.procs && w.procs[u].claimer.Some? && w.procs[u].claimer.value in w.acts
  {
    SettleRank(w.acts[w.procs[u].claimer.value])
  }

  lemma TouchClaimer(w: World, t: Tid, a: Act, c: Choice, u: Uuid)
    requires Touches(a) && a.u in w.procs && u in w.procs && PointOK(w.procs, t, a, w.procs[a.u])
    ensures u in ProcStep(w, t, a, w.procs[a.u], c).procs
    ensures ProcStep(w, t, a, w.procs[a.u], c).procs[u].claimer == w.procs[u].claimer
  {
    hide PointOK, ProcStep;
    TouchHands(w, t, a, c);
  }

  /** Nobody but the claimer changes who is settling, and others' moves leave him where he is. */
  lemma ClaimerStays(w: World, l: Label, u: Uuid)
    requires Inv(w) && Enabled(w, l) && u in w.procs && !Active(w.procs[u].state)
    requires !(l.Move? && w.procs[u].claimer == Some(l.t))
    ensures u in Next(w, l).procs && Next(w, l).procs[u].claimer == w.procs[u].claimer
  {
    hide Inv, ProcStep, FindStep, PointOK, FieldsOK, AllFilled, Local;
    if l.Move? && !w.acts[l.t].Notify? && !w.acts[l.t].DeleteFind? {
      var a := w.acts[l.t];
      Facts(w, l.t, a.u);
      if Touches(a) {
        TouchClaimer(w, l.t, a, l.c, u);
      } else {
        PassedOn(w, l.t, a, w.procs[a.u], l.c);
        if a.u == u { LocalClaimer(a, w.procs[u], l.t, See(w, a, w.procs[u], l.c)); }
      }
    } else {
      FindKeeps(w, l);
    }
  }

  /** A settling stop ends after at most six turns of the activity that claimed it, or of the goroutine
      it started, and nothing that others do prolongs it. So fairness asks for no more than six turns. */
  lemma SettlingEnds(w: World, l: Label, u: Uuid)
    requires Inv(w) && Enabled(w, l) && Settling(w, u) && !Active(w.procs[u].state)
    ensures 0 < SettlesIn(w, u) <= 6
    ensures forall o :: Enabled(w, Move(w.procs[u].claimer.value, o))
    ensures u in Next(w, l).procs
    ensures if l.Move? && l.t == w.procs[u].claimer.value
            then Settling(Next(w, l), u) ==> SettlesIn(Next(w, l), u) < SettlesIn(w, u)
            else Settling(Next(w, l), u) && SettlesIn(Next(w, l), u) == SettlesIn(w, u)
  {
    var t := w.procs[u].claimer.value;
    SettlerAt(w, u, t);
    hide Inv, Next, Local, SettleRank, Settles;
    if l.Move? && l.t == t {
      var a, p := w.acts[t], w.procs[u];
      var s := See(w, a, p, l.c);
      SettlerTurn(a, p, t, s, u);
      TurnIs(w, t, u, l.c);
      assert l == Move(t, l.c);
      Numbered(w, t);
      AfterTurn(w, t, u, Local(a, p, t, s));
    } else {
      ClaimerStays(w, l, u);
      StaysPut(w, l, t);
    }
  }

  lemma SettlerAt(w: World, u: Uuid, t: Tid)
    requires Inv(w) && Settling(w, u) && t == w.procs[u].claimer.value
    ensures var a := w.acts[t];
            !a.Notify? && !a.DeleteFind? && a.u == u && !Touches(a) && 0 < SettleRank(a) <= 6
    ensures forall o :: Enabled(w, Move(t, o))
  {
    hide ActsOK, TableOK, LedgerOK, AllFilled;
  }

  // ----- a run ends -----

  function RunRank(a: Act): nat {
    match a
    case RunLaunch(_) => 3
    case RunWait(_) => 2
    case RunSet(_, _) => 1
    case _ => 0
  }

  /** How many turns the run goroutine of u still needs at most. */
  function RunsIn(w: World, u: Uuid): nat
    requires Executing(w, u) && w.procs[u].runner.value in w.acts
  {
    RunRank(w.acts[w.procs[u].runner.value])
  }

  lemma RunnerAt(w: World, u: Uuid)
    requires Inv(w) && Executing(w, u)
    ensures var t := w.procs[u].runner.value;
            t in w.acts && t < w.nextTid && InRunner(w.acts[t], u) && w.procs[u].started
  {
    hide TableOK, LedgerOK, ActOK, InRunner;
    assert Filled(w.acts, Runner, u, w.procs[u]);
  }

  lemma RunnerTurn(a: Act, p: Proc, t: Tid, s: Seen, u: Uuid)
    requires InRunner(a, u) && p.runner == Some(t) && !p.ran
    ensures var e := Local(a, p, t, s);
            && e.p.runner == p.runner && e.next.Some?
            && (a.RunSet? ==> e.p.ran) && (!a.RunSet? ==> InRunner(e.next.value, u) && !e.p.ran && RunRank(e.next.value) < RunRank(a))
  {
    hide Start, StopStep;
  }

  lemma OthersDoNotRun(procs: map<Uuid, Proc>, t: Tid, a: Act, p: Proc, s: Seen)
    requires !a.Notify? && !a.DeleteFind? && a.u in procs && p == procs[a.u] && PointOK(procs, t, a, p) && p.runner != Some(t)
    ensures Local(a, p, t, s).p.ran == p.ran
  {
    hide AfterOK, Replacing, InStop;
  }

  lemma TouchRan(w: World, t: Tid, a: Act, c: Choice, u: Uuid)
    requires Touches(a) && a.u in w.procs && u in w.procs && PointOK(w.procs, t, a, w.procs[a.u])
    ensures u in ProcStep(w, t, a, w.procs[a.u], c).procs
    ensures ProcStep(w, t, a, w.procs[a.u], c).procs[u].ran == w.procs[u].ran
  {
    hide PointOK, ProcStep;
    TouchHands(w, t, a, c);
  }

  lemma RanStays(w: World, l: Label, u: Uuid)
    requires Inv(w) && Enabled(w, l) && u in w.procs && !(l.Move? && w.procs[u].runner == Some(l.t))
    ensures u in Next(w, l).procs && Next(w, l).procs[u].ran == w.procs[u].ran
  {
    hide Inv, ProcStep, FindStep, PointOK, FieldsOK, AllFilled, Local;
    if l.Move? && !w.acts[l.t].Notify? && !w.acts[l.t].DeleteFind? {
      var a := w.acts[l.t];
      Facts(w, l.t, a.u);
      if Touches(a) {
        TouchRan(w, l.t, a, l.c, u);
      } else {
        PassedOn(w, l.t, a, w.procs[a.u], l.c);
        if a.u == u { OthersDoNotRun(w.procs, l.t, a, w.procs[u], See(w, a, w.procs[u], l.c)); }
      }
    } else {
      FindKeeps(w, l);
    }
  }

  /** A run goroutine ends after at most three turns of its own (the launch, the return of Wait and
      the write of the outcome), and nothing that others do prolongs it. */
  lemma RunEnds(w: World, l: Label, u: Uuid)
    requires Inv(w) && Enabled(w, l) && Executing(w, u)
    ensures w.procs[u].runner.value in w.acts && 0 < RunsIn(w, u) <= 3
    ensures forall o :: Enabled(w, Move(w.procs[u].runner.value, o))
    ensures u in Next(w, l).procs && Next(w, l).procs[u].runner == w.procs[u].runner
    ensures if l.Move? && l.t == w.procs[u].runner.value
            then Executing(Next(w, l), u) ==> l.t in Next(w, l).acts && RunsIn(Next(w, l), u) < RunsIn(w, u)
            else Executing(Next(w, l), u) && w.procs[u].runner.value in Next(w, l).acts && RunsIn(Next(w, l), u) == RunsIn(w, u)
  {
    RunnerAt(w, u);
    var t := w.procs[u].runner.value;
    RunnerMoves(w, u, t);
    hide Inv, Next, Local, RunRank, InRunner, Later;
    StepLater(w, l, u);
    if l.Move? && l.t == t {
      var a, p := w.acts[t], w.procs[u];
      var s := See(w, a, p, l.c);
      RunnerTurn(a, p, t, s, u);
      TurnIs(w, t, u, l.c);
      assert l == Move(t, l.c);
      AfterTurn(w, t, u, Local(a, p, t, s));
    } else {
      LaterRunner(w.procs[u], Next(w, l).procs[u]);
      RanStays(w, l, u);
      StaysPut(w, l, t);
    }
  }

  lemma LaterRunner(p: Proc, q: Proc)
    requires Later(p, q) && p.started
    ensures q.runner == p.runner
  {
  }

  lemma RunnerMoves(w: World, u: Uuid, t: Tid)
    requires t in w.acts && InRunner(w.acts[t], u)
    ensures var a := w.acts[t]; !a.Notify? && !a.DeleteFind? && a.u == u && !Touches(a) && 0 < RunRank(a) <= 3
    ensures forall o :: Enabled(w, Move(t, o))
  {
  }
}
