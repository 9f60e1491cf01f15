/** How long the goroutines wait: a delete gives up, and a stop kills, only after a minute of polls,
    whatever the interleaving and without any assumption of fairness. */
module ProtocolWaits {
  import opened Wrappers
  import opened PortLedger
  import opened Protocol
  import opened ProtocolInv
  import opened ProtocolSteps
  import opened ProtocolPreserve
  import opened ProtocolTheorems
  import opened ProtocolActs
  import opened ProtocolDelete

  /** Step j is poll x of the delete that began with step i, and finds u neither Stopped nor Error. */
  ghost predicate Looked(ws: seq<World>, ls: seq<Label>, u: Uuid, i: nat, j: nat, x: nat)
    requires |ls| < |ws|
  {
    && i < j < |ls|
    && var c := CarrierAt(ws, ls, u, i, j);
       && CarrierMoves(c, ls[j]) && c.value in ws[j].acts && ws[j].acts[c.value] == UnregPoll(u, x)
       && u in ws[j].procs && !Terminal(ws[j].procs[u].state)
  }

  ghost predicate LookedBefore(ws: seq<World>, ls: seq<Label>, u: Uuid, i: nat, k: nat, x: nat)
    requires |ls| < |ws|
  {
    exists j :: i < j < k && Looked(ws, ls, u, i, j, x)
  }

  /** Polls 0 to n - 1 came before step k and found nothing. */
  ghost predicate LookedOften(ws: seq<World>, ls: seq<Label>, u: Uuid, i: nat, k: nat, n: nat)
    requires |ls| < |ws|
  {
    forall x: nat :: x < n ==> LookedBefore(ws, ls, u, i, k, x)
  }

  /** The turns it takes at least to get to a. */
  function Floor(a: Act): nat {
    match a
    case StopClaim(_, _, _) => 1
    case StopSend(_, _, _) => 2
    case StopClose(_, _) => 2
    case StopLoad(_, _, _) => 3
    case DeleteUnregister(_) => 2
    case UnregPoll(_, i) => 3 + i
    case _ => 0
  }

  /** The delete has polled as often as where it stands says. */
  ghost predicate Spent(ws: seq<World>, ls: seq<Label>, u: Uuid, i: nat, k: nat, c: Option<Tid>)
    requires i < k <= |ls| < |ws|
  {
    c.Some? && c.value in ws[k].acts && u in ws[k].procs ==>
      var a, turns := ws[k].acts[c.value], CarrierTurns(ws, ls, u, i, k);
      && turns >= Floor(a)
      && (a.UnregPoll? ==> LookedOften(ws, ls, u, i, k, a.i))
      && (a.UnregRecheck? && !Terminal(ws[k].procs[u].state) ==> turns >= 604 && LookedOften(ws, ls, u, i, k, 600))
  }

  ghost predicate GaveUp(ws: seq<World>, ls: seq<Label>, u: Uuid, i: nat, k: nat)
    requires i < k <= |ls| < |ws|
  {
    CarrierTurns(ws, ls, u, i, k) >= 605 && LookedOften(ws, ls, u, i, k, 600)
  }

  /** One turn of the delete at a point of its own. */
  lemma LocalFloor(u: Uuid, t: Tid, s: Seen, a: Act, p: Proc, b: Act)
    requires Carries(a, u, p) && !a.DeleteFind? && !a.UnregRemove? && !a.DeleteUnregister?
    requires Local(a, p, t, s).next == Some(b)
    ensures Floor(b) <= Floor(a) + 1
    ensures b.UnregPoll? ==> b.i > 0 && a == UnregPoll(u, b.i - 1) && !Terminal(p.state)
    ensures b.UnregRecheck? ==> a.UnregPoll? && a.u == u && (Terminal(p.state) || a.i == 600) && Local(a, p, t, s).p == p
  {
    hide Start;
  }

  /** Where a turn of the carrier leads it. */
  lemma TurnFloor(w: World, t: Tid, c: Choice, u: Uuid)
    requires Inv(w) && OnCourse(w, Some(t), u) && !GivesUp(w, Some(t), Move(t, c), u)
    requires Enabled(w, Move(t, c))
    ensures var w', c' := Next(w, Move(t, c)), NextCarrier(w, Some(t), Move(t, c), u);
            c'.Some? && c'.value in w'.acts && u in w'.procs ==>
              var a, b := w.acts[t], w'.acts[c'.value];
              && Floor(b) <= Floor(a) + 1
              && (b.UnregPoll? ==> b.i == 0 || (a == UnregPoll(u, b.i - 1) && !Terminal(w.procs[u].state)))
              && (b.UnregRecheck? ==>
                    a.UnregPoll? && a.u == u && (Terminal(w'.procs[u].state) || (a.i == 600 && !Terminal(w.procs[u].state))))
  {
    hide Inv, Local, Reported, Next, Carries, Floor;
    var a := w.acts[t];
    if a.DeleteFind? {
      FindFloor(w, t, c, u);
    } else if !a.UnregRemove? {
      CarrierPoint(w, u, t);
      Numbered(w, t);
      var p := w.procs[u];
      var s := See(w, a, p, c);
      TurnIs(w, t, u, c);
      AfterTurn(w, t, u, Local(a, p, t, s));
      if a.DeleteUnregister? {
        UnregisterFloor(u, p, t, s);
      } else {
        MoveLeads(w, t, c);
        var b := Local(a, p, t, s).next;
        if b.Some? { LocalFloor(u, t, s, a, p, b.value); }
      }
    }
  }

  lemma FindFloor(w: World, t: Tid, c: Choice, u: Uuid)
    requires t in w.acts && w.acts[t].DeleteFind? && OnCourse(w, Some(t), u)
    ensures var w', c' := Next(w, Move(t, c)), NextCarrier(w, Some(t), Move(t, c), u);
            c'.Some? ==> c'.value in w'.acts && w'.acts[c'.value].StopClaim?
    ensures forall b: Act :: b.StopClaim? ==> Floor(b) == 1
  {
    hide ProcStep;
  }

  lemma UnregisterFloor(u: Uuid, p: Proc, t: Tid, s: Seen)
    ensures var e := Local(DeleteUnregister(u), p, t, s); s.listed ==> e.spawn == One(UnregPoll(u, 0))
    ensures Floor(UnregPoll(u, 0)) == 3 && Floor(DeleteUnregister(u)) == 2
  {
  }

  lemma LooksLast(ws: seq<World>, ls: seq<Label>, u: Uuid, i: nat, k: nat, n: nat)
    requires |ls| < |ws| && LookedOften(ws, ls, u, i, k, n)
    ensures LookedOften(ws, ls, u, i, k + 1, n)
    ensures Looked(ws, ls, u, i, k, n) ==> LookedOften(ws, ls, u, i, k + 1, n + 1)
  {
    hide Looked;
    var next := k + 1;
    forall x: nat | x < n || (x == n && Looked(ws, ls, u, i, k, n)) ensures LookedBefore(ws, ls, u, i, next, x) {
      if x < n { assert LookedBefore(ws, ls, u, i, k, x); } else { LooksAt(ws, ls, u, i, k, n); }
    }
  }

  lemma LooksAt(ws: seq<World>, ls: seq<Label>, u: Uuid, i: nat, k: nat, x: nat)
    requires |ls| < |ws| && Looked(ws, ls, u, i, k, x)
    ensures LookedBefore(ws, ls, u, i, k + 1, x)
  {
    assert i < k;
    hide Looked;
  }

  /** A step of somebody else, or of a carrier that is gone. */
  lemma SpentStill(ws: seq<World>, ls: seq<Label>, u: Uuid, i: nat, k: nat, c: Option<Tid>)
    requires i < k < |ls| < |ws| && Inv(ws[k]) && Enabled(ws[k], ls[k]) && ws[k + 1] == Next(ws[k], ls[k])
    requires c == CarrierAt(ws, ls, u, i, k) && OnCourse(ws[k], c, u) && Spent(ws, ls, u, i, k, c)
    requires !CarrierMoves(c, ls[k])
    ensures CarrierAt(ws, ls, u, i, k + 1) == c && Spent(ws, ls, u, i, k + 1, c)
    ensures CarrierTurns(ws, ls, u, i, k + 1) == CarrierTurns(ws, ls, u, i, k)
  {
    hide Inv, Next, Enabled, Reported, Carries, Floor, Looked, LookedOften;
    if c.Some? {
      StaysPut(ws[k], ls[k], c.value);
      ProcessStays(ws[k], ls[k], u);
      var a := ws[k].acts[c.value];
      if a.UnregPoll? { LooksLast(ws, ls, u, i, k, a.i); }
      if a.UnregRecheck? && !Terminal(ws[k].procs[u].state) { LooksLast(ws, ls, u, i, k, 600); }
    }
  }

  /** A turn of the carrier. */
  lemma SpentTurn(ws: seq<World>, ls: seq<Label>, u: Uuid, i: nat, k: nat, t: Tid)
    requires i < k < |ls| < |ws| && Inv(ws[k]) && Enabled(ws[k], ls[k]) && ws[k + 1] == Next(ws[k], ls[k])
    requires CarrierAt(ws, ls, u, i, k) == Some(t) && OnCourse(ws[k], Some(t), u) && Spent(ws, ls, u, i, k, Some(t))
    requires ls[k].Move? && ls[k].t == t && !GivesUp(ws[k], Some(t), ls[k], u)
    ensures Spent(ws, ls, u, i, k + 1, CarrierAt(ws, ls, u, i, k + 1))
  {
    hide Inv, Next, Enabled, Reported, Carries, Floor, LookedOften;
    var a := ws[k].acts[t];
    assert ls[k] == Move(t, ls[k].c);
    TurnFloor(ws[k], t, ls[k].c, u);
    if a.UnregPoll? { LooksLast(ws, ls, u, i, k, a.i); }
    NoneLooked(ws, ls, u, i, k + 1);
    assert CarrierTurns(ws, ls, u, i, k + 1) == CarrierTurns(ws, ls, u, i, k) + 1;
    FloorOfPoll(a);
  }

  lemma NoneLooked(ws: seq<World>, ls: seq<Label>, u: Uuid, i: nat, k: nat)
    requires |ls| < |ws|
    ensures LookedOften(ws, ls, u, i, k, 0)
  {
  }

  lemma FloorOfPoll(a: Act)
    ensures a.UnregPoll? ==> Floor(a) == 3 + a.i
  {
  }

  /** Giving up ends the delete. */
  lemma GivesUpNow(ws: seq<World>, ls: seq<Label>, u: Uuid, i: nat, k: nat, c: Option<Tid>)
    requires i < k < |ls| < |ws| && Inv(ws[k]) && Enabled(ws[k], ls[k])
    requires c == CarrierAt(ws, ls, u, i, k) && Spent(ws, ls, u, i, k, c) && GivesUp(ws[k], c, ls[k], u)
    ensures CarrierAt(ws, ls, u, i, k + 1).None? && GaveUp(ws, ls, u, i, k + 1)
  {
    hide Inv, Next, Enabled, Floor, Looked;
    LooksLast(ws, ls, u, i, k, 600);
  }

  lemma {:induction false} WaitAlong(ws: seq<World>, ls: seq<Label>, u: Uuid, n: Name, want: Option<Uuid>, i: nat, k: nat)
    requires IsRun(ws, ls) && i < k <= |ls| < |ws| && ls[i] == DeleteCall(n, want)
    requires Listed(ws[i], u) && ws[i].procs[u].name == n && (want.None? || want.value == u) && Reported(ws[i].procs[u])
    ensures var c := CarrierAt(ws, ls, u, i, k);
            (OnCourse(ws[k], c, u) && Spent(ws, ls, u, i, k, c)) || (c.None? && GaveUp(ws, ls, u, i, k))
    decreases k
  {
    hide Inv, Next, Enabled, Reported, OnCourse, Listed, IsRun, LookedOften, Spent, GivesUp;
    RunInv(ws, ls, k - 1);
    RunStep(ws, ls, k - 1);
    if k == i + 1 {
      DeleteBegins(ws[i], u, n, want);
      SpentAtFirst(ws, ls, u, n, want, i);
    } else {
      WaitAlong(ws, ls, u, n, want, i, k - 1);
      var c, l := CarrierAt(ws, ls, u, i, k - 1), ls[k - 1];
      if c.None? && GaveUp(ws, ls, u, i, k - 1) {
        LooksLast(ws, ls, u, i, k - 1, 600);
      } else if GivesUp(ws[k - 1], c, l, u) {
        GivesUpNow(ws, ls, u, i, k - 1, c);
      } else {
        CourseStep(ws[k - 1], c, l, u);
        if CarrierMoves(c, l) { SpentTurn(ws, ls, u, i, k - 1, c.value); } else { SpentStill(ws, ls, u, i, k - 1, c); }
      }
    }
  }

  lemma SpentAtFirst(ws: seq<World>, ls: seq<Label>, u: Uuid, n: Name, want: Option<Uuid>, i: nat)
    requires i < |ls| < |ws| && ls[i] == DeleteCall(n, want) && Enabled(ws[i], ls[i]) && ws[i + 1] == Next(ws[i], ls[i])
    ensures Spent(ws, ls, u, i, i + 1, CarrierAt(ws, ls, u, i, i + 1))
  {
  }

  /** A delete gives up no sooner than the code says, in any run: if the delete of a process that was
      started and whose readiness goroutine has reported ends without the process being gone, it took
      605 turns or more, and 600 of them were polls, numbered 0 to 599, each of which found the
      process neither Stopped nor Error. */
  lemma DeleteIsPatient(ws: seq<World>, ls: seq<Label>, u: Uuid, n: Name, want: Option<Uuid>, i: nat, k: nat)
    requires IsRun(ws, ls) && i < k <= |ls| < |ws| && ls[i] == DeleteCall(n, want)
    requires Listed(ws[i], u) && ws[i].procs[u].name == n && (want.None? || want.value == u) && Reported(ws[i].procs[u])
    requires CarrierAt(ws, ls, u, i, k).None? && u in ws[k].procs && !ws[k].procs[u].stage.Gone?
    ensures CarrierTurns(ws, ls, u, i, k) >= 605
    ensures forall x: nat :: x < 600 ==> LookedBefore(ws, ls, u, i, k, x)
  {
    hide Inv, Next, Enabled, Reported, Listed, IsRun, Spent, LookedBefore;
    WaitAlong(ws, ls, u, n, want, i, k);
  }
}
