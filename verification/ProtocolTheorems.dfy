/** What holds in every run of the process manager, whatever the interleaving. */
module ProtocolTheorems {
  import opened Wrappers
  import opened PortLedger
  import opened Protocol
  import opened ProtocolInv
  import opened ProtocolSteps
  import opened ProtocolPreserve

  ghost predicate IsRun(ws: seq<World>, ls: seq<Label>) {
    && |ws| == |ls| + 1 && IsInit(ws[0])
    && forall i :: 0 <= i < |ls| ==> Enabled(ws[i], ls[i]) && ws[i + 1] == Next(ws[i], ls[i])
  }

  lemma {:induction false} RunInv(ws: seq<World>, ls: seq<Label>, i: nat)
    requires IsRun(ws, ls) && i < |ws|
    ensures Inv(ws[i])
  {
    if i == 0 {
      InitInv(ws[0]);
    } else {
      RunInv(ws, ls, i - 1);
      hide Inv, Next, Enabled;
      NextInv(ws[i - 1], ls[i - 1]);
    }
  }

  // ----- ports -----

  predicate Listed(w: World, u: Uuid) { u in w.procs && Holds(w.table, w.procs[u].name, u) }

  /** A create or replace call still has to settle u. */
  ghost predicate InCall(w: World, u: Uuid) { exists t :: t in w.acts && OwnsNew(w.acts[t], u) }

  ghost predicate HoldsPort(w: World, u: Uuid, x: int) {
    u in w.procs && x in PortsOf(w.procs[u]) && (Listed(w, u) || InCall(w, u))
  }

  lemma StageMeaning(w: World, u: Uuid)
    requires Inv(w) && u in w.procs
    ensures Listed(w, u) <==> w.procs[u].stage.Registered?
    ensures InCall(w, u) <==> w.procs[u].stage.Opened? || w.procs[u].stage.InFlight?
    ensures w.procs[u].stage.Opened? ==> PortsOf(w.procs[u]) == {}
  {
    var p := w.procs[u];
    hide LedgerOK;
    if InCall(w, u) {
      var t :| t in w.acts && OwnsNew(w.acts[t], u);
      assert ActOK(w.procs, t, w.acts[t]);
    }
    if p.stage.Opened? || p.stage.InFlight? {
      assert Filled(w.acts, Owner, u, p);
      assert OwnsNew(w.acts[p.creator], u);
    }
  }

  /** At every step each port of the range is free, or belongs to exactly one process that is
      registered or in the hands of one call; nothing outside the range is ever handed out. */
  lemma PortConservation(ws: seq<World>, ls: seq<Label>, i: nat)
    requires IsRun(ws, ls) && i < |ws|
    ensures ws[i].free <= Range(ws[i].lo, ws[i].hi)
    ensures forall x :: ws[i].lo <= x <= ws[i].hi ==> (x in ws[i].free <==> !exists u :: HoldsPort(ws[i], u, x))
    ensures forall x, u, v :: HoldsPort(ws[i], u, x) && HoldsPort(ws[i], v, x) ==> u == v && ws[i].lo <= x <= ws[i].hi
  {
    RunInv(ws, ls, i);
    var w := ws[i];
    assert forall u, x :: HoldsPort(w, u, x) <==> x in w.owner && w.owner[x] == u by {
      forall u, x ensures HoldsPort(w, u, x) <==> x in w.owner && w.owner[x] == u { HolderIsOwner(w, u, x); }
    }
    hide HoldsPort;
    forall x | w.lo <= x <= w.hi ensures x in w.free <==> !exists u :: HoldsPort(w, u, x) {
      assert x in Range(w.lo, w.hi);
      if x !in w.free { assert HoldsPort(w, w.owner[x], x); }
    }
  }

  lemma HolderIsOwner(w: World, u: Uuid, x: int)
    requires Inv(w)
    ensures HoldsPort(w, u, x) <==> x in w.owner && w.owner[x] == u
  {
    hide ActsOK, ProcsOK, TableOK, InCall, Listed;
    if u in w.procs { StageMeaning(w, u); }
  }

  /** With no create or replace call in progress, every port that is not free is held by
      a process the table lists. */
  lemma NoPortIsLost(ws: seq<World>, ls: seq<Label>, i: nat, x: int)
    requires IsRun(ws, ls) && i < |ws| && ws[i].lo <= x <= ws[i].hi
    requires forall t, u :: t in ws[i].acts ==> !OwnsNew(ws[i].acts[t], u)
    ensures x in ws[i].free <==> !exists u :: Listed(ws[i], u) && x in PortsOf(ws[i].procs[u])
  {
    PortConservation(ws, ls, i);
    var w := ws[i];
    if u :| HoldsPort(w, u, x) {
      assert Listed(w, u);
    }
    if u :| Listed(w, u) && x in PortsOf(w.procs[u]) {
      assert HoldsPort(w, u, x);
    }
  }

  // ----- how one step moves one process -----

  /** What it was asked to be, and the ports once it has them. */
  predicate SameSpec(p: Proc, q: Proc) {
    && q.name == p.name && q.binary == p.binary && q.count == p.count && q.portArgs == p.portArgs
    && (!p.stage.Opened? ==> q.first == p.first && q.last == p.last)
  }

  /** The monotone part of a process's history. */
  predicate Later(p: Proc, q: Proc) {
    && SameSpec(p, q)
    && (p.started ==> q.started && q.runner == p.runner && q.reader == p.reader) && (p.ran ==> q.ran)
    && (Published(p) ==> Published(q)) && (p.stage.Gone? ==> q.stage.Gone?)
    && (!p.stage.Opened? ==> !q.stage.Opened?)
    && (p.closed ==> q.closed) && (Discharged(p) ==> Discharged(q))
    && (p.readied ==> q.readied)
    && (Terminal(p.state) && !Terminal(q.state) ==> !p.readied && q.readied)
    && (!Active(p.state) && Active(q.state) ==> !p.readied && q.readied)
  }

  /** The states a graceful stop can be claimed from. */
  predicate Active(s: PState) { s.Starting? || s.Running? }

  lemma LocalLater(procs: map<Uuid, Proc>, t: Tid, a: Act, p: Proc, s: Seen)
    requires !a.Notify? && !a.DeleteFind? && a.u in procs && p == procs[a.u] && PointOK(procs, t, a, p) && FieldsOK(p)
    ensures Later(p, Local(a, p, t, s).p)
  {
    hide AfterOK, Replacing, InStop, Start, StopStep, Later;
    match a
    case CreateStart(u) => StartLater(p, u, s, None, Notify);
    case ReplaceStart(u, o) => StartLater(p, u, s, Some(ReplacePoll(u, o, 0)), StopClaim(u, s.now, ToRelease));
    case StopClaim(u, _, after) => ClaimLater(p, u, t, s.now, after);
    case _ => PointLater(procs, t, a, p, s);
  }

  lemma StartLater(p: Proc, u: Uuid, s: Seen, onOk: Option<Act>, onFail: Act)
    requires FieldsOK(p) && !p.started && !p.stage.Opened?
    ensures Later(p, Start(p, u, s, onOk, onFail).p)
  {
  }

  lemma ClaimLater(p: Proc, u: Uuid, t: Tid, now: int, after: After)
    ensures Later(p, StopStep(p, u, t, now, after).p)
  {
    hide Later;
    StopChanges(p, u, t, now, after);
    SelfLater(p);
    CloserLater(p, t);
    if Claim(p.state, p.deletedAt, now).Graceful? { GracefulLater(p, t, now); }
  }

  lemma StopChanges(p: Proc, u: Uuid, t: Tid, now: int, after: After)
    ensures var q := StopStep(p, u, t, now, after).p;
            if Claim(p.state, p.deletedAt, now).Graceful? then
              q == p.(state := Stopping, deletedAt := Some(now), closer := Some(t), claimer := Some(t))
            else q == p || q == p.(closer := Some(t))
  {
    hide Resume, Claim;
  }

  lemma CloserLater(p: Proc, t: Tid)
    ensures Later(p, p.(closer := Some(t)))
  {
  }

  lemma GracefulLater(p: Proc, t: Tid, now: int)
    requires Claim(p.state, p.deletedAt, now).Graceful?
    ensures Later(p, p.(state := Stopping, deletedAt := Some(now), closer := Some(t), claimer := Some(t)))
  {
  }

  lemma PointLater(procs: map<Uuid, Proc>, t: Tid, a: Act, p: Proc, s: Seen)
    requires !a.Notify? && !a.DeleteFind? && a.u in procs && p == procs[a.u] && PointOK(procs, t, a, p) && FieldsOK(p)
    requires !a.CreateStart? && !a.ReplaceStart? && !a.StopClaim?
    ensures Later(p, Local(a, p, t, s).p)
  {
    hide AfterOK, Replacing, InStop, Start, StopStep;
  }

  lemma SelfLater(p: Proc)
    ensures Later(p, p)
  {
  }

  /** What dropping a process leaves alone. */
  lemma Dropping(w: World, v: Uuid)
    ensures Drop(w, v).table == w.table && Drop(w, v).acts == w.acts && Drop(w, v).nextTid == w.nextTid
    ensures Drop(w, v).procs == if v in w.procs then w.procs[v := w.procs[v].(stage := Gone)] else w.procs
  {
    hide Released, PortsOf;
  }

  lemma DroppingFree(w: World, v: Uuid)
    ensures v in w.procs ==> Drop(w, v).free == Released(w.free, w.lo, w.hi, w.procs[v].first, w.procs[v].last)
    ensures v !in w.procs ==> Drop(w, v).free == w.free
  {
    hide Released, PortsOf;
  }

  lemma TouchStep(w: World, t: Tid, a: Act, p: Proc, c: Choice)
    requires Touches(a)
    ensures a.CreateRegister? ==> ProcStep(w, t, a, p, c) == RegisterStep(w, t, a.u, p, c)
    ensures a.ReplaceInit? ==> ProcStep(w, t, a, p, c) == ReplaceInitStep(w, t, a.u, p, c)
    ensures a.UnregRemove? ==> ProcStep(w, t, a, p, c) == RemoveStep(w, t, a.u, p)
    ensures a.ReplaceCommit? ==> ProcStep(w, t, a, p, c) == CommitStep(w, t, a.u, a.o, p)
    ensures a.ReplaceDropPorts? || a.ReplaceRelease? ==> ProcStep(w, t, a, p, c) == End(Drop(w, a.u), t)
  {
    hide Local, Advance, RegisterStep, ReplaceInitStep, RemoveStep, CommitStep, Drop;
  }

  /** How the steps on the table and the bitmap change a process. */
  predicate Handed(p: Proc, q: Proc) {
    && SameSpec(p, q) && q.state == p.state && q.deletedAt == p.deletedAt && q.cmd == p.cmd
    && q.started == p.started && q.runner == p.runner && q.reader == p.reader && q.ran == p.ran
    && q.closed == p.closed && q.readied == p.readied && q.claimer == p.claimer
    && (p.closer.Some? ==> q.closer.Some?)
    && (p.stage.Opened? || (p.stage.InFlight? && q.stage.Registered?) || (Discharged(p) && q.stage.Gone?))
  }

  lemma HandedLater(p: Proc, q: Proc)
    requires Handed(p, q)
    ensures Later(p, q)
  {
  }

  lemma TouchPoint(procs: map<Uuid, Proc>, t: Tid, a: Act)
    requires Touches(a) && a.u in procs && PointOK(procs, t, a, procs[a.u])
    ensures a.ReplaceCommit? ==> a.o in procs && Discharged(procs[a.o])
    ensures a.UnregRemove? || a.ReplaceDropPorts? || a.ReplaceRelease? ==> Discharged(procs[a.u])
    ensures a.CreateRegister? || a.ReplaceInit? ==> procs[a.u].stage.Opened?
    ensures a.ReplaceCommit? ==> procs[a.u].stage.InFlight? && a.o != a.u
  {
  }

  ghost predicate HandedOn(procs: map<Uuid, Proc>, procs': map<Uuid, Proc>) {
    forall u :: u in procs ==> u in procs' && (procs'[u] == procs[u] || Handed(procs[u], procs'[u]))
  }

  lemma RegisterHands(w: World, t: Tid, u: Uuid, p: Proc, c: Choice)
    requires u in w.procs && p == w.procs[u] && p.stage.Opened?
    ensures HandedOn(w.procs, RegisterStep(w, t, u, p, c).procs)
  {
    hide Handed, Allocated, PortsOf;
    AdmittedHanded(p, c, t);
  }

  lemma ReplaceInitHands(w: World, t: Tid, u: Uuid, p: Proc, c: Choice)
    requires u in w.procs && p == w.procs[u] && p.stage.Opened?
    ensures HandedOn(w.procs, ReplaceInitStep(w, t, u, p, c).procs)
  {
    hide Handed, Allocated, PortsOf;
    AdmittedHanded(p, c, t);
  }

  lemma AdmittedHanded(p: Proc, c: Choice, t: Tid)
    requires p.stage.Opened?
    ensures Handed(p, Allocated(p, c).(stage := Registered)) && Handed(p, Allocated(p, c).(stage := InFlight))
    ensures Handed(p, p.(stage := Gone, closer := Some(t)))
  {
  }

  lemma CommitHands(w: World, t: Tid, u: Uuid, o: Uuid, p: Proc)
    requires u in w.procs && p == w.procs[u] && p.stage.InFlight? && u != o && o in w.procs && Discharged(w.procs[o])
    ensures HandedOn(w.procs, CommitStep(w, t, u, o, p).procs)
  {
    hide Drop, Discharged, Handed;
    Dropping(w, o);
    var a, b := w.procs[o].(stage := Gone), p.(stage := Registered);
    KindsHanded(w.procs[o], a);
    KindsHanded(p, b);
    assert CommitStep(w, t, u, o, p).procs in {w.procs, w.procs[u := b], w.procs[o := a][u := b]};
  }

  lemma KindsHanded(p: Proc, q: Proc)
    requires (p.stage.InFlight? && q == p.(stage := Registered)) || (Discharged(p) && q == p.(stage := Gone))
    ensures Handed(p, q)
  {
  }

  lemma DropHands(w: World, u: Uuid)
    requires u in w.procs && Discharged(w.procs[u])
    ensures HandedOn(w.procs, Drop(w, u).procs)
  {
    hide Drop, Discharged, Handed;
    Dropping(w, u);
    KindsHanded(w.procs[u], w.procs[u].(stage := Gone));
  }

  lemma TouchHands(w: World, t: Tid, a: Act, c: Choice)
    requires Touches(a) && a.u in w.procs && PointOK(w.procs, t, a, w.procs[a.u])
    ensures HandedOn(w.procs, ProcStep(w, t, a, w.procs[a.u], c).procs)
  {
    hide PointOK, ProcStep, RegisterStep, ReplaceInitStep, CommitStep, Drop, Handed;
    TouchStep(w, t, a, w.procs[a.u], c);
    TouchPoint(w.procs, t, a);
    if a.CreateRegister? { RegisterHands(w, t, a.u, w.procs[a.u], c); }
    else if a.ReplaceInit? { ReplaceInitHands(w, t, a.u, w.procs[a.u], c); }
    else if a.ReplaceCommit? { CommitHands(w, t, a.u, a.o, w.procs[a.u]); }
    else { DropHands(w, a.u); }
  }

  lemma TouchLater(w: World, t: Tid, a: Act, c: Choice, u: Uuid)
    requires Touches(a) && a.u in w.procs && u in w.procs && PointOK(w.procs, t, a, w.procs[a.u])
    ensures u in ProcStep(w, t, a, w.procs[a.u], c).procs
    ensures Later(w.procs[u], ProcStep(w, t, a, w.procs[a.u], c).procs[u])
  {
    hide PointOK, ProcStep, Later, Handed;
    TouchHands(w, t, a, c);
    var p := w.procs[u];
    var q := ProcStep(w, t, a, w.procs[a.u], c).procs[u];
    assert q == p || Handed(p, q);
    if q == p { SelfLater(p); } else { HandedLater(p, q); }
  }

  lemma StepLater(w: World, l: Label, u: Uuid)
    requires Inv(w) && Enabled(w, l) && u in w.procs
    ensures u in Next(w, l).procs && Later(w.procs[u], Next(w, l).procs[u])
  {
    hide Inv, PointOK, FieldsOK, AllFilled, Later, Local, ProcStep, FindStep;
    SelfLater(w.procs[u]);
    if l.Move? && !w.acts[l.t].Notify? && !w.acts[l.t].DeleteFind? {
      var a := w.acts[l.t];
      Facts(w, l.t, a.u);
      if Touches(a) {
        TouchLater(w, l.t, a, l.c, u);
      } else {
        var s := See(w, a, w.procs[a.u], l.c);
        LocalLater(w.procs, l.t, a, w.procs[a.u], s);
        PassedOn(w, l.t, a, w.procs[a.u], l.c);
      }
    } else {
      FindKeeps(w, l);
    }
  }

  lemma PassedOn(w: World, t: Tid, a: Act, p: Proc, c: Choice)
    requires !a.Notify? && !a.DeleteFind? && !Touches(a)
    ensures ProcStep(w, t, a, p, c).procs == w.procs[a.u := Local(a, p, t, See(w, a, p, c)).p]
  {
    hide Local, Advance;
  }

  lemma FindKeeps(w: World, l: Label)
    requires Enabled(w, l) && (l.Move? ==> w.acts[l.t].Notify? || w.acts[l.t].DeleteFind?)
    ensures forall u :: u in w.procs ==> u in Next(w, l).procs && Next(w, l).procs[u] == w.procs[u]
    ensures l.Move? ==> Next(w, l).procs == w.procs
  {
    hide ProcStep;
  }

  lemma {:induction false} RunLater(ws: seq<World>, ls: seq<Label>, i: nat, j: nat, u: Uuid)
    requires IsRun(ws, ls) && i <= j < |ws| && u in ws[i].procs
    ensures u in ws[j].procs && ws[j].procs[u].name == ws[i].procs[u].name
    ensures ws[j].procs[u].binary == ws[i].procs[u].binary
    ensures ws[i].procs[u].stage.Gone? ==> ws[j].procs[u].stage.Gone?
    ensures Published(ws[i].procs[u]) ==> Published(ws[j].procs[u])
    decreases j
  {
    hide Inv, Next, Enabled, IsRun;
    if i < j {
      RunLater(ws, ls, i, j - 1, u);
      RunInv(ws, ls, j - 1);
      RunStep(ws, ls, j - 1);
      StepLater(ws[j - 1], ls[j - 1], u);
    }
  }

  // ----- every range is released at most once -----

  /** The step gives u's ports back to the bitmap. */
  predicate GivesBack(w: World, l: Label, u: Uuid) {
    && l.Move? && l.t in w.acts
    && (var a := w.acts[l.t];
        || a == ReplaceDropPorts(u) || a == ReplaceRelease(u)
        || (a == UnregRemove(u) && Listed(w, u))
        || (a.ReplaceCommit? && a.o == u && a.u in w.procs && Holds(w.table, w.procs[a.u].name, u)))
  }

  /** How often u's ports went back in the first k steps. */
  function Releases(ws: seq<World>, ls: seq<Label>, u: Uuid, k: nat): nat
    requires k <= |ls| < |ws|
  {
    if k == 0 then 0 else Releases(ws, ls, u, k - 1) + if GivesBack(ws[k - 1], ls[k - 1], u) then 1 else 0
  }

  lemma GivingBack(w: World, l: Label, u: Uuid)
    requires Inv(w) && Enabled(w, l) && GivesBack(w, l, u)
    ensures u in w.procs && Holding(w.procs[u]) && PortsOf(w.procs[u]) !! w.free
    ensures u in Next(w, l).procs && Next(w, l).procs[u].stage.Gone?
    ensures Next(w, l).free == w.free + PortsOf(w.procs[u])
  {
    hide ActsOK, ProcsOK, TableOK, LedgerOK, ProcStep, FindStep, Drop, Released, PortsOf, Holding;
    GiverHolds(w, l, u);
    ReleasedIsUnion(w, u);
    Dropping(w, u);
    DroppingFree(w, u);
    TouchStep(w, l.t, w.acts[l.t], w.procs[w.acts[l.t].u], l.c);
  }

  lemma GiverHolds(w: World, l: Label, u: Uuid)
    requires Inv(w) && Enabled(w, l) && GivesBack(w, l, u)
    ensures Touches(w.acts[l.t]) && w.acts[l.t].u in w.procs && u in w.procs && Holding(w.procs[u])
    ensures w.acts[l.t].ReplaceCommit? ==> w.acts[l.t].u != u
  {
    hide LedgerOK, ProcsOK;
    var a := w.acts[l.t];
    Facts(w, l.t, a.u);
    StageMeaning(w, u);
    hide Inv, FieldsOK, AllFilled;
  }

  /** Which process a step on the table or the bitmap drops, if any. */
  function Dropped(w: World, a: Act): Option<Uuid> {
    if a.ReplaceDropPorts? || a.ReplaceRelease? then Some(a.u)
    else if a.UnregRemove? && Listed(w, a.u) then Some(a.u)
    else if a.ReplaceCommit? && a.u in w.procs && Holds(w.table, w.procs[a.u].name, a.o) then Some(a.o)
    else None
  }

  lemma TouchFree(w: World, t: Tid, a: Act, c: Choice)
    requires Touches(a) && a.u in w.procs && Dropped(w, a).None?
    ensures ProcStep(w, t, a, w.procs[a.u], c).free <= w.free
  {
    hide ProcStep, Drop, PortsOf, Allocated, Released;
    TouchStep(w, t, a, w.procs[a.u], c);
  }

  lemma TouchGone(w: World, t: Tid, a: Act, c: Choice, u: Uuid)
    requires Touches(a) && a.u in w.procs && (a.CreateRegister? || a.ReplaceInit? ==> w.procs[a.u].stage.Opened?)
    requires u in w.procs && Holding(w.procs[u]) && Dropped(w, a) != Some(u)
    ensures u in ProcStep(w, t, a, w.procs[a.u], c).procs && Holding(ProcStep(w, t, a, w.procs[a.u], c).procs[u])
  {
    hide ProcStep, Drop, PortsOf, Allocated, Released;
    TouchStep(w, t, a, w.procs[a.u], c);
    Dropping(w, a.u);
    if a.ReplaceCommit? { Dropping(w, a.o); }
  }

  lemma QuietFree(w: World, l: Label)
    requires Enabled(w, l)
    requires l.Move? ==> w.acts[l.t].Notify? || w.acts[l.t].DeleteFind? || w.acts[l.t].u !in w.procs || !Touches(w.acts[l.t])
    ensures Next(w, l).free == w.free
  {
    hide Local, Advance;
  }

  /** The bitmap grows in no other way: a port that was not free and now is was given back by
      the process that held it. */
  lemma BitmapGrows(w: World, l: Label, x: int) returns (u: Uuid)
    requires Inv(w) && Enabled(w, l) && x !in w.free && x in Next(w, l).free
    ensures GivesBack(w, l, u) && u in w.procs && Holding(w.procs[u]) && x in PortsOf(w.procs[u])
  {
    hide Inv, ProcStep, GivesBack, PortsOf, FindStep, Dropped;
    u := 0;
    if l.Move? && !w.acts[l.t].Notify? && !w.acts[l.t].DeleteFind? && w.acts[l.t].u in w.procs && Touches(w.acts[l.t]) {
      DroppedGivesBack(w, l);
      if Dropped(w, w.acts[l.t]).None? { TouchFree(w, l.t, w.acts[l.t], l.c); }
      u := Dropped(w, w.acts[l.t]).value;
      GivingBack(w, l, u);
    } else {
      QuietFree(w, l);
    }
  }

  lemma DroppedGivesBack(w: World, l: Label)
    requires l.Move? && l.t in w.acts && Touches(w.acts[l.t])
    ensures Dropped(w, w.acts[l.t]).Some? ==> GivesBack(w, l, Dropped(w, w.acts[l.t]).value)
  {
  }

  /** A process that held ports and is gone has given them back. */
  lemma GoneMeansGiven(w: World, l: Label, u: Uuid)
    requires Inv(w) && Enabled(w, l) && u in w.procs && Holding(w.procs[u])
    requires u in Next(w, l).procs && Next(w, l).procs[u].stage.Gone?
    ensures GivesBack(w, l, u)
  {
    hide Inv, ProcStep, GivesBack, FindStep, Dropped, PointOK, FieldsOK, AllFilled;
    if l.Move? && !w.acts[l.t].Notify? && !w.acts[l.t].DeleteFind? {
      var a := w.acts[l.t];
      Facts(w, l.t, a.u);
      if Touches(a) {
        TouchPoint(w.procs, l.t, a);
        DroppedGivesBack(w, l);
        if Dropped(w, a) != Some(u) { TouchGone(w, l.t, a, l.c, u); }
      } else {
        PassedOn(w, l.t, a, w.procs[a.u], l.c);
        LocalStage(a, w.procs[a.u], l.t, See(w, a, w.procs[a.u], l.c));
      }
    } else {
      FindKeeps(w, l);
    }
  }

  lemma LocalStage(a: Act, p: Proc, t: Tid, s: Seen)
    requires !a.Notify? && !a.DeleteFind?
    ensures Local(a, p, t, s).p.stage == p.stage
  {
  }

  /** A process's ports go back at most once, never while one of them is already free,
      and only when the process leaves the manager for good. */
  lemma {:induction false} ReleasedOnce(ws: seq<World>, ls: seq<Label>, u: Uuid, k: nat)
    requires IsRun(ws, ls) && k <= |ls|
    ensures Releases(ws, ls, u, k) <= 1
    ensures Releases(ws, ls, u, k) == 1 ==> u in ws[k].procs && ws[k].procs[u].stage.Gone? && !Listed(ws[k], u)
  {
    if k > 0 {
      var w, l := ws[k - 1], ls[k - 1];
      ReleasedOnce(ws, ls, u, k - 1);
      RunInv(ws, ls, k - 1);
      RunInv(ws, ls, k);
      assert Enabled(w, l) && ws[k] == Next(w, l);
      if GivesBack(w, l, u) {
        GivingBack(w, l, u);
        StageMeaning(ws[k], u);
      } else if u in w.procs {
        StepLater(w, l, u);
        StageMeaning(ws[k], u);
      }
      hide Inv, GivesBack, Next, Enabled, IsRun;
    }
  }

  // ----- identifiers: compare and swap on the table -----

  /** A delete that found u removes u or nothing; a replace that captured o overwrites o or an
      empty slot; a create fills an empty slot; nothing else writes the table. */
  lemma TableWrites(w: World, l: Label, n: Name)
    requires Enabled(w, l)
    requires var w' := Next(w, l); !(n in w'.table <==> n in w.table) || (n in w.table && w'.table[n] != w.table[n])
    ensures l.Move? && l.t in w.acts
    ensures match w.acts[l.t]
            case CreateRegister(u) => n !in w.table && Holds(Next(w, l).table, n, u)
            case UnregRemove(u) => Holds(w.table, n, u) && n !in Next(w, l).table
            case ReplaceCommit(u, o) => (n !in w.table || w.table[n] == o) && Holds(Next(w, l).table, n, u)
            case _ => false
  {
    hide ProcStep, FindStep, RegisterStep, ReplaceInitStep, RemoveStep, CommitStep;
    if l.Move? && !w.acts[l.t].Notify? && !w.acts[l.t].DeleteFind? {
      var a := w.acts[l.t];
      if a.u in w.procs {
        if Touches(a) { TouchWrites(w, l.t, a, w.procs[a.u], l.c, n); }
        else { PointWrites(w, l.t, a, w.procs[a.u], l.c); }
      }
    } else {
      OthersWrite(w, l);
    }
  }

  lemma OthersWrite(w: World, l: Label)
    requires Enabled(w, l) && (l.Move? ==> w.acts[l.t].Notify? || w.acts[l.t].DeleteFind?)
    ensures Next(w, l).table == w.table
  {
    hide ProcStep;
  }

  lemma PointWrites(w: World, t: Tid, a: Act, p: Proc, c: Choice)
    requires !a.Notify? && !a.DeleteFind? && !Touches(a)
    ensures ProcStep(w, t, a, p, c).table == w.table
  {
    hide Local, Advance;
  }

  lemma TouchWrites(w: World, t: Tid, a: Act, p: Proc, c: Choice, n: Name)
    requires Touches(a)
    ensures var table := ProcStep(w, t, a, p, c).table;
            || (n !in w.table && n !in table)
            || (n in w.table && Holds(table, n, w.table[n]))
            || (a.CreateRegister? && n !in w.table && Holds(table, n, a.u))
            || (a.UnregRemove? && Holds(w.table, n, a.u) && n !in table)
            || (a.ReplaceCommit? && (n !in w.table || w.table[n] == a.o) && Holds(table, n, a.u))
  {
    hide ProcStep, Drop, PortsOf, Allocated, Released;
    TouchStep(w, t, a, p, c);
    Dropping(w, a.u);
    if a.ReplaceCommit? { Dropping(w, a.o); }
  }

  predicate Commits(w: World, l: Label, u: Uuid, o: Uuid)
    requires Enabled(w, l)
  {
    && l.Move? && w.acts[l.t] == ReplaceCommit(u, o) && Listed(Next(w, l), u)
  }

  lemma CommitRetires(w: World, l: Label, u: Uuid, o: Uuid)
    requires Inv(w) && Enabled(w, l) && Commits(w, l, u, o)
    ensures u in w.procs && o in w.procs && w.procs[u].name == w.procs[o].name
    ensures o in Next(w, l).procs && Next(w, l).procs[o].stage.Gone?
  {
    hide Inv, ProcStep, FieldsOK, AllFilled, Drop, PortsOf;
    Facts(w, l.t, u);
    assert Replacing(w.procs, l.t, u, o);
    hide PointOK;
    NotYetListed(w, u);
    Dropping(w, o);
    TouchStep(w, l.t, w.acts[l.t], w.procs[u], l.c);
    StageMeaning(w, o);
  }

  lemma NotYetListed(w: World, u: Uuid)
    requires Inv(w) && u in w.procs && w.procs[u].stage.InFlight?
    ensures !Listed(w, u)
  {
    StageMeaning(w, u);
  }

  /** Two replaces that captured the same process both succeed only if the slot
      was empty when the later one committed. */
  lemma SecondReplaceFindsEmptySlot(ws: seq<World>, ls: seq<Label>, i: nat, j: nat, u: Uuid, v: Uuid, o: Uuid)
    requires IsRun(ws, ls) && i < j < |ls|
    requires Commits(ws[i], ls[i], u, o) && Commits(ws[j], ls[j], v, o)
    ensures v in ws[j].procs && ws[j].procs[v].name !in ws[j].table
  {
    RunInv(ws, ls, i);
    RunInv(ws, ls, j);
    CommitRetires(ws[i], ls[i], u, o);
    RunLater(ws, ls, i + 1, j, o);
    CommitRetires(ws[j], ls[j], v, o);
    StageMeaning(ws[j], o);
    Facts(ws[j], ls[j].t, v);
    StageMeaning(ws[j], v);
    hide Inv, PointOK, FieldsOK, AllFilled, Local, PortsOf, Released, InCall;
  }

  // ----- log writers -----

  /** Some activity will close u's log writer whatever else happens. */
  ghost predicate ClosePending(w: World, u: Uuid) { exists t :: t in w.acts && Closes(w.acts[t], u) }

  /** Every writer is closed, or about to be closed, or belongs to a listed process or to
      a create or replace call in progress. */
  lemma WriterConservation(ws: seq<World>, ls: seq<Label>, i: nat, u: Uuid)
    requires IsRun(ws, ls) && i < |ws| && u in ws[i].procs
    ensures ws[i].procs[u].closed || ClosePending(ws[i], u) || Listed(ws[i], u) || InCall(ws[i], u)
    ensures ws[i].procs[u].state.Stopping? ==> ws[i].procs[u].deletedAt.Some?
    ensures ws[i].procs[u].deletedAt.Some? ==> ws[i].procs[u].closed || ClosePending(ws[i], u)
  {
    RunInv(ws, ls, i);
    var w := ws[i];
    var p := w.procs[u];
    StageMeaning(w, u);
    hide InCall, Listed, TableOK, LedgerOK;
    if Discharged(p) && !p.closed {
      assert Filled(w.acts, Closer, u, p);
      assert Closes(w.acts[p.closer.value], u);
    }
  }

  // ----- a delete removes only what it found -----

  /** The activity belongs to a delete that found u. */
  predicate InDelete(a: Act, u: Uuid) {
    || ((a.DeleteUnregister? || a.UnregPoll? || a.UnregRecheck? || a.UnregRemove?) && a.u == u)
    || (InStop(a) && a.after.ToUnregister? && a.u == u)
  }

  /** Step i is a delete call that looked u up under name n and was asked for u or for any process. */
  ghost predicate Finds(ws: seq<World>, ls: seq<Label>, i: nat, n: Name, u: Uuid)
    requires i < |ls| < |ws|
  {
    && ls[i].Move? && ls[i].t in ws[i].acts
    && FindsHere(ws[i], ws[i].acts[ls[i].t], u) && ws[i].acts[ls[i].t].name == n
  }

  lemma LocalProvenance(a: Act, p: Proc, t: Tid, s: Seen, b: Act, u: Uuid)
    requires !a.Notify? && !a.DeleteFind? && InDelete(b, u)
    requires b == Notify || Local(a, p, t, s).next == Some(b)
             || (!Local(a, p, t, s).spawn.Zero? && Local(a, p, t, s).spawn.a == b)
             || (Local(a, p, t, s).spawn.Two? && Local(a, p, t, s).spawn.b == b)
    ensures InDelete(a, u)
  {
  }

  lemma AdvanceProvenance(w: World, x: Tid, u: Uuid, e: Effect, t: Tid)
    requires t in Advance(w, x, u, e).acts
    ensures var b := Advance(w, x, u, e).acts[t];
            || (t in w.acts && w.acts[t] == b) || (t == x && e.next == Some(b))
            || (!e.spawn.Zero? && e.spawn.a == b) || (e.spawn.Two? && e.spawn.b == b)
  {
  }

  /** A delete's activities come from a delete's activities, or from finding the process. */
  lemma StepProvenance(w: World, l: Label, t: Tid, u: Uuid)
    requires Enabled(w, l) && t in Next(w, l).acts && InDelete(Next(w, l).acts[t], u)
    ensures || (t in w.acts && InDelete(w.acts[t], u))
            || (l.Move? && l.t in w.acts && InDelete(w.acts[l.t], u))
            || (l.Move? && l.t in w.acts && FindsHere(w, w.acts[l.t], u))
  {
    hide Local, Advance, ProcStep;
    if l.Move? && !w.acts[l.t].Notify? && !w.acts[l.t].DeleteFind? {
      var a := w.acts[l.t];
      if a.u in w.procs {
        if Touches(a) { TouchProvenance(w, l.t, a, w.procs[a.u], l.c, t, u); }
        else { PointProvenance(w, l.t, a, w.procs[a.u], l.c, t, u); }
      }
    }
  }

  lemma PointProvenance(w: World, x: Tid, a: Act, p: Proc, c: Choice, t: Tid, u: Uuid)
    requires !a.Notify? && !a.DeleteFind? && !Touches(a)
    requires t in ProcStep(w, x, a, p, c).acts && InDelete(ProcStep(w, x, a, p, c).acts[t], u)
    ensures (t in w.acts && InDelete(w.acts[t], u)) || InDelete(a, u)
  {
    hide Local, Advance, InDelete;
    var s := See(w, a, p, c);
    var e := Local(a, p, x, s);
    AdvanceProvenance(w, x, a.u, e, t);
    if !(t in w.acts && w.acts[t] == Advance(w, x, a.u, e).acts[t]) {
      LocalProvenance(a, p, x, s, Advance(w, x, a.u, e).acts[t], u);
    }
  }

  lemma TouchProvenance(w: World, x: Tid, a: Act, p: Proc, c: Choice, t: Tid, u: Uuid)
    requires Touches(a)
    requires t in ProcStep(w, x, a, p, c).acts && InDelete(ProcStep(w, x, a, p, c).acts[t], u)
    ensures t in w.acts && InDelete(w.acts[t], u)
  {
    hide ProcStep, Drop, PortsOf, Allocated, Released;
    TouchStep(w, x, a, p, c);
    Dropping(w, a.u);
    if a.ReplaceCommit? { Dropping(w, a.o); }
  }

  predicate FindsHere(w: World, a: Act, u: Uuid) {
    a.DeleteFind? && (a.want.None? || a.want.value == u) && Holds(w.table, a.name, u)
  }

  lemma {:induction false} DeleteProvenance(ws: seq<World>, ls: seq<Label>, k: nat, t: Tid, u: Uuid) returns (i: nat)
    requires IsRun(ws, ls) && k <= |ls| && t in ws[k].acts && InDelete(ws[k].acts[t], u)
    ensures i < k && u in ws[i].procs && Finds(ws, ls, i, ws[i].procs[u].name, u)
  {
    hide Next, Enabled, InDelete, Inv, IsRun, FindsHere;
    NotAtStart(ws, ls, k, t);
    var w, l := ws[k - 1], ls[k - 1];
    RunStep(ws, ls, k - 1);
    StepProvenance(w, l, t, u);
    if t in w.acts && InDelete(w.acts[t], u) {
      i := DeleteProvenance(ws, ls, k - 1, t, u);
    } else if l.Move? && l.t in w.acts && InDelete(w.acts[l.t], u) {
      i := DeleteProvenance(ws, ls, k - 1, l.t, u);
    } else {
      i := k - 1;
      RunInv(ws, ls, k - 1);
      FoundListed(w, w.acts[l.t], u);
    }
  }

  lemma NotAtStart(ws: seq<World>, ls: seq<Label>, k: nat, t: Tid)
    requires IsRun(ws, ls) && k <= |ls| && t in ws[k].acts
    ensures k > 0 && |ws| == |ls| + 1
  {
  }

  lemma RunLength(ws: seq<World>, ls: seq<Label>)
    requires IsRun(ws, ls)
    ensures |ws| == |ls| + 1
  {
  }

  lemma RunStep(ws: seq<World>, ls: seq<Label>, k: nat)
    requires IsRun(ws, ls) && k < |ws| - 1
    ensures |ws| == |ls| + 1 && Enabled(ws[k], ls[k]) && ws[k + 1] == Next(ws[k], ls[k])
  {
  }

  lemma FoundListed(w: World, a: Act, u: Uuid)
    requires Inv(w) && FindsHere(w, a, u)
    ensures a.DeleteFind? && u in w.procs && w.procs[u].name == a.name
  {
    hide ActsOK, ProcsOK, LedgerOK;
  }

  /** Whenever an entry disappears from the table, a delete call had earlier looked up that very
      process under that name, asking for it by UUID or for any process. */
  lemma RemovalWasRequested(ws: seq<World>, ls: seq<Label>, k: nat, n: Name) returns (i: nat)
    requires IsRun(ws, ls) && k < |ls| && n in ws[k].table && n !in ws[k + 1].table
    ensures i < k && Finds(ws, ls, i, n, ws[k].table[n])
  {
    var w, l := ws[k], ls[k];
    assert Enabled(w, l) && ws[k + 1] == Next(w, l);
    TableWrites(w, l, n);
    RunInv(ws, ls, k);
    i := DeleteProvenance(ws, ls, k, l.t, w.table[n]);
    RunLater(ws, ls, i, k, w.table[n]);
    assert TableOK(w);
    hide Next, Enabled, ActsOK, ProcsOK, LedgerOK;
  }

  // ----- a replace overwrites only what it found -----

  /** The activity is a replace by u that captured o. */
  predicate InReplace(a: Act, u: Uuid, o: Uuid) {
    || ((a.ReplaceCompare? || a.ReplaceStart? || a.ReplacePoll? || a.ReplaceCommit?) && a.u == u && a.o == o)
    || (InStop(a) && a.after == ToCommit(u) && a.u == o)
  }

  /** The activity is the admission of u, and the table holds o under u's name. */
  predicate CapturesHere(w: World, a: Act, u: Uuid, o: Uuid) {
    a == ReplaceInit(u) && u in w.procs && Holds(w.table, w.procs[u].name, o)
  }

  lemma LocalCapture(a: Act, p: Proc, t: Tid, s: Seen, b: Act, u: Uuid, o: Uuid)
    requires !a.Notify? && !a.DeleteFind? && InReplace(b, u, o)
    ensures Local(a, p, t, s).next == Some(b) ==> InReplace(a, u, o)
    ensures !Local(a, p, t, s).spawn.Zero? ==> Local(a, p, t, s).spawn.a != b
    ensures Local(a, p, t, s).spawn.Two? ==> Local(a, p, t, s).spawn.b != b
  {
  }

  lemma PointCapture(w: World, x: Tid, a: Act, p: Proc, c: Choice, t: Tid, u: Uuid, o: Uuid)
    requires !a.Notify? && !a.DeleteFind? && !Touches(a) && x in w.acts && w.acts[x] == a
    requires t in ProcStep(w, x, a, p, c).acts && InReplace(ProcStep(w, x, a, p, c).acts[t], u, o)
    ensures t in w.acts && InReplace(w.acts[t], u, o)
  {
    hide Local, Advance, InReplace;
    var s := See(w, a, p, c);
    var e := Local(a, p, x, s);
    AdvanceProvenance(w, x, a.u, e, t);
    LocalCapture(a, p, x, s, Advance(w, x, a.u, e).acts[t], u, o);
  }

  lemma TouchCapture(w: World, x: Tid, a: Act, c: Choice, t: Tid, u: Uuid, o: Uuid)
    requires Touches(a) && a.u in w.procs && x in w.acts && w.acts[x] == a
    requires t in ProcStep(w, x, a, w.procs[a.u], c).acts && InReplace(ProcStep(w, x, a, w.procs[a.u], c).acts[t], u, o)
    ensures t in w.acts && (InReplace(w.acts[t], u, o) || (t == x && CapturesHere(w, a, u, o)))
  {
    hide ProcStep, Drop, PortsOf, Allocated, Released;
    TouchStep(w, x, a, w.procs[a.u], c);
    Dropping(w, a.u);
    if a.ReplaceCommit? { Dropping(w, a.o); }
  }

  lemma StepCapture(w: World, l: Label, t: Tid, u: Uuid, o: Uuid)
    requires Enabled(w, l) && t in Next(w, l).acts && InReplace(Next(w, l).acts[t], u, o)
    ensures t in w.acts
    ensures InReplace(w.acts[t], u, o) || (l.Move? && l.t == t && CapturesHere(w, w.acts[t], u, o))
  {
    hide Local, Advance, ProcStep;
    if l.Move? && !w.acts[l.t].Notify? && !w.acts[l.t].DeleteFind? {
      var a := w.acts[l.t];
      if a.u in w.procs {
        if Touches(a) { TouchCapture(w, l.t, a, l.c, t, u, o); }
        else { PointCapture(w, l.t, a, w.procs[a.u], l.c, t, u, o); }
      }
    }
  }

  /** What a replace goes by as the process it replaces was captured by the same call: at its
      admission the table held that process under the replacement's name. */
  lemma {:induction false} ReplaceProvenance(ws: seq<World>, ls: seq<Label>, k: nat, t: Tid, u: Uuid, o: Uuid) returns (i: nat)
    requires IsRun(ws, ls) && k <= |ls| && t in ws[k].acts && InReplace(ws[k].acts[t], u, o)
    ensures i < k && ls[i].Move? && ls[i].t == t && t in ws[i].acts && CapturesHere(ws[i], ws[i].acts[t], u, o)
  {
    hide Next, Enabled, InReplace, IsRun, CapturesHere;
    NotAtStart(ws, ls, k, t);
    RunStep(ws, ls, k - 1);
    StepCapture(ws[k - 1], ls[k - 1], t, u, o);
    if InReplace(ws[k - 1].acts[t], u, o) {
      i := ReplaceProvenance(ws, ls, k - 1, t, u, o);
    } else {
      i := k - 1;
    }
  }

  /** Whenever an entry passes from one process to another, a replace call had earlier been admitted
      under that name while the table held that very process, and it is that call's own process
      that takes its place. */
  lemma ReplacementWasCaptured(ws: seq<World>, ls: seq<Label>, k: nat, n: Name) returns (i: nat)
    requires IsRun(ws, ls) && k < |ls| && n in ws[k].table && n in ws[k + 1].table && ws[k + 1].table[n] != ws[k].table[n]
    ensures i < k && ls[k].Move? && ls[i].Move? && ls[i].t == ls[k].t && ls[i].t in ws[i].acts
    ensures CapturesHere(ws[i], ws[i].acts[ls[i].t], ws[k + 1].table[n], ws[k].table[n])
    ensures ws[i].procs[ws[k + 1].table[n]].name == n
  {
    hide Next, Enabled, IsRun, Inv, ProcStep;
    RunLength(ws, ls);
    RunStep(ws, ls, k);
    TableWrites(ws[k], ls[k], n);
    var u := ws[k + 1].table[n];
    i := ReplaceProvenance(ws, ls, k, ls[k].t, u, ws[k].table[n]);
    RunLater(ws, ls, i, k + 1, u);
    RunInv(ws, ls, k + 1);
    InTable(ws[k + 1], n);
  }

  // ----- lifecycle -----

  predicate Leaves(w: World, l: Label, u: Uuid)
    requires Enabled(w, l)
  {
    && u in w.procs && u in Next(w, l).procs
    && Terminal(w.procs[u].state) && !Terminal(Next(w, l).procs[u].state)
  }

  predicate ClaimsStop(w: World, l: Label, u: Uuid) {
    && l.Move? && l.t in w.acts && w.acts[l.t].StopClaim? && w.acts[l.t].u == u && u in w.procs
    && Claim(w.procs[u].state, w.procs[u].deletedAt, Clock(w, w.acts[l.t], l.c)).Graceful?
  }

  /** How often, in the first k steps, u's state left {Stopped, Error}. */
  ghost function LeavesOf(ws: seq<World>, ls: seq<Label>, u: Uuid, k: nat): nat
    requires IsRun(ws, ls) && k <= |ls|
  {
    if k == 0 then 0 else LeavesOf(ws, ls, u, k - 1) + if Leaves(ws[k - 1], ls[k - 1], u) then 1 else 0
  }

  /** How often, in the first k steps, a stop call claimed the graceful stop of u. */
  ghost function ClaimsOf(ws: seq<World>, ls: seq<Label>, u: Uuid, k: nat): nat
    requires IsRun(ws, ls) && k <= |ls|
  {
    if k == 0 then 0 else ClaimsOf(ws, ls, u, k - 1) + if ClaimsStop(ws[k - 1], ls[k - 1], u) then 1 else 0
  }

  function Once(b: bool): nat { if b then 1 else 0 }

  lemma ClaimEffect(w: World, l: Label, u: Uuid)
    requires Enabled(w, l) && ClaimsStop(w, l, u)
    ensures Active(w.procs[u].state) && u in Next(w, l).procs && Next(w, l).procs[u].state.Stopping?
  {
  }

  lemma NewProcess(w: World, l: Label, u: Uuid)
    requires Enabled(w, l) && u !in w.procs && u in Next(w, l).procs
    ensures !Next(w, l).procs[u].readied
  {
    hide ProcStep, FindStep;
    if l.Move? && !w.acts[l.t].Notify? && !w.acts[l.t].DeleteFind? {
      var a := w.acts[l.t];
      if a.u in w.procs {
        if Touches(a) { TouchBirths(w, l.t, a, w.procs[a.u], l.c); } else { PassedOn(w, l.t, a, w.procs[a.u], l.c); }
      }
    } else if l.Move? {
      FindKeeps(w, l);
    }
  }

  lemma TouchBirths(w: World, t: Tid, a: Act, p: Proc, c: Choice)
    requires Touches(a) && a.u in w.procs
    ensures ProcStep(w, t, a, p, c).procs.Keys == w.procs.Keys
  {
    hide ProcStep, Drop, PortsOf, Allocated, Released;
    TouchStep(w, t, a, p, c);
    Dropping(w, a.u);
    if a.ReplaceCommit? { Dropping(w, a.o); }
  }

  /** Whatever the order of the run, readiness and stop goroutines, a process leaves
      {Stopped, Error} at most once and its graceful stop is claimed at most twice. */
  lemma {:induction false} LifecycleBound(ws: seq<World>, ls: seq<Label>, u: Uuid, k: nat)
    requires IsRun(ws, ls) && k <= |ls|
    ensures LeavesOf(ws, ls, u, k) <= 1 && ClaimsOf(ws, ls, u, k) <= 2
    ensures u !in ws[k].procs ==> LeavesOf(ws, ls, u, k) == 0 && ClaimsOf(ws, ls, u, k) == 0
    ensures u in ws[k].procs ==>
              && LeavesOf(ws, ls, u, k) <= Once(ws[k].procs[u].readied)
              && ClaimsOf(ws, ls, u, k) + Once(Active(ws[k].procs[u].state)) <= 1 + Once(ws[k].procs[u].readied)
  {
    hide Inv, Next, Enabled, ClaimsStop, IsRun;
    if k > 0 {
      RunLength(ws, ls);
      var w, l := ws[k - 1], ls[k - 1];
      LifecycleBound(ws, ls, u, k - 1);
      RunInv(ws, ls, k - 1);
      RunStep(ws, ls, k - 1);
      if u in w.procs {
        StepLater(w, l, u);
        if ClaimsStop(w, l, u) { ClaimEffect(w, l, u); }
      } else {
        if u in ws[k].procs { NewProcess(w, l, u); }
        NoClaim(w, l, u);
      }
    } else {
      NotYet(ws, ls, u);
    }
  }

  lemma NoClaim(w: World, l: Label, u: Uuid)
    requires u !in w.procs
    ensures !ClaimsStop(w, l, u)
  {
  }

  lemma NotYet(ws: seq<World>, ls: seq<Label>, u: Uuid)
    requires IsRun(ws, ls)
    ensures ws[0].procs == map[]
  {
  }

  // ----- no process is wedged -----

  /** Some call will still start u, or a goroutine of u's Start or of a claimed stop is pending. */
  ghost predicate Unsettled(w: World, u: Uuid) {
    exists t :: t in w.acts && Pending(w.acts[t], u)
  }

  predicate Pending(a: Act, u: Uuid) { WillStart(a, u) || InRunner(a, u) || InReader(a, u) || Settles(a, u) }

  /** The process was started, and its readiness goroutine has had its say. */
  predicate Reported(p: Proc) { p.started && (p.reader.Some? ==> p.readied) }

  /** And so has its run goroutine. */
  predicate Settled(p: Proc) { Reported(p) && !RunPending(p) }

  /** A listed process that nothing is pending for is stopped, failed or running, its command has
      been reaped or never started, and its goroutines have had their say. */
  lemma NoWedge(ws: seq<World>, ls: seq<Label>, i: nat, u: Uuid)
    requires IsRun(ws, ls) && i < |ws| && Listed(ws[i], u) && !Unsettled(ws[i], u)
    ensures ws[i].procs[u].state in {Stopped, Error, Running}
    ensures !ws[i].procs[u].cmd.Live? && Settled(ws[i].procs[u])
  {
    RunInv(ws, ls, i);
    StageMeaning(ws[i], u);
    NothingPending(ws[i], u);
  }

  lemma NothingPending(w: World, u: Uuid)
    requires ProcsOK(w) && u in w.procs && w.procs[u].stage.Registered? && !Unsettled(w, u)
    ensures w.procs[u].state in {Stopped, Error, Running} && !w.procs[u].cmd.Live? && Settled(w.procs[u])
  {
    hide WillStart, InRunner, InReader, Settles, OwnsNew, Closes;
    var p := w.procs[u];
    assert FieldsOK(p) && AllFilled(w.acts, u, p);
    hide ProcsOK;
    forall t | t in w.acts
      ensures !WillStart(w.acts[t], u) && !InRunner(w.acts[t], u) && !InReader(w.acts[t], u) && !Settles(w.acts[t], u)
    {
      assert !Pending(w.acts[t], u);
    }
  }

  /** After the readiness goroutine's verdict a process is neither revived nor made claimable again. */
  lemma ReportedStays(p: Proc, q: Proc)
    requires Later(p, q) && Reported(p) && FieldsOK(q)
    ensures Reported(q) && (Terminal(p.state) ==> Terminal(q.state)) && (!Active(p.state) ==> !Active(q.state))
  {
  }
}
