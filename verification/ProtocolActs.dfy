/** Activities: where a step leads, who stays where he is, who is new, and that nobody comes back. */
module ProtocolActs {
  import opened Wrappers
  import opened PortLedger
  import opened Protocol
  import opened ProtocolInv
  import opened ProtocolSteps
  import opened ProtocolPreserve
  import opened ProtocolTheorems

  lemma Numbered(w: World, t: Tid)
    requires Inv(w) && t in w.acts
    ensures t < w.nextTid
  {
    hide ProcsOK, TableOK, LedgerOK, ActOK;
  }

  // ----- who stays -----

  lemma PointIsAdvance(w: World, t: Tid, a: Act, p: Proc, c: Choice)
    requires !a.Notify? && !a.DeleteFind? && !Touches(a)
    ensures ProcStep(w, t, a, p, c) == Advance(w, t, a.u, Local(a, p, t, See(w, a, p, c)))
  {
    hide Local, Advance;
  }

  lemma AdvanceOthers(w: World, t: Tid, u: Uuid, e: Effect, x: Tid)
    requires x in w.acts && x != t && x < w.nextTid
    ensures x in Advance(w, t, u, e).acts && Advance(w, t, u, e).acts[x] == w.acts[x]
  {
  }

  lemma TouchOthers(w: World, t: Tid, a: Act, p: Proc, c: Choice, x: Tid)
    requires Touches(a) && x in w.acts && x != t
    ensures x in ProcStep(w, t, a, p, c).acts && ProcStep(w, t, a, p, c).acts[x] == w.acts[x]
  {
    hide ProcStep, Drop, PortsOf, Allocated, Released;
    TouchStep(w, t, a, p, c);
    Dropping(w, a.u);
    if a.ReplaceCommit? { Dropping(w, a.o); }
  }

  /** Whatever happens, an activity that does not move stays where it is. */
  lemma OthersStay(w: World, l: Label, x: Tid)
    requires ActsOK(w) && Enabled(w, l) && x in w.acts && !(l.Move? && l.t == x)
    ensures x in Next(w, l).acts && Next(w, l).acts[x] == w.acts[x]
  {
    assert x < w.nextTid;
    hide ActsOK, ProcStep, Local, Advance;
    if l.Move? && !w.acts[l.t].Notify? && !w.acts[l.t].DeleteFind? && w.acts[l.t].u in w.procs {
      var a := w.acts[l.t];
      var p := w.procs[a.u];
      if Touches(a) {
        TouchOthers(w, l.t, a, p, l.c, x);
      } else {
        PointIsAdvance(w, l.t, a, p, l.c);
        AdvanceOthers(w, l.t, a.u, Local(a, p, l.t, See(w, a, p, l.c)), x);
      }
    }
  }

  lemma StaysPut(w: World, l: Label, x: Tid)
    requires Inv(w) && Enabled(w, l) && x in w.acts && !(l.Move? && l.t == x)
    ensures x in Next(w, l).acts && Next(w, l).acts[x] == w.acts[x]
  {
    hide ProcsOK, TableOK, LedgerOK, ActOK;
    OthersStay(w, l, x);
  }

  // ----- where a step leads -----

  function Where(w: World, t: Tid): Option<Act> { if t in w.acts then Some(w.acts[t]) else None }

  function Onto(w: World, a: Act, p: Proc, c: Choice): Option<Act>
    requires Touches(a)
  {
    match a
    case CreateRegister(u) => Some(if p.name in w.table || !c.ok then CloseLog(u) else CreateNotify(u))
    case ReplaceInit(u) => Some(if p.name !in w.table || !c.ok then CloseLog(u) else ReplaceCompare(u, w.table[p.name]))
    case UnregRemove(_) => Some(Notify)
    case ReplaceCommit(u, o) =>
      Some(if p.name !in w.table || w.table[p.name] == o then Notify else StopClaim(u, w.now, ToRelease))
    case _ => None
  }

  lemma AdvanceLeads(w: World, t: Tid, u: Uuid, e: Effect)
    requires t < w.nextTid
    ensures Where(Advance(w, t, u, e), t) == e.next
  {
  }

  lemma TouchLeads(w: World, t: Tid, a: Act, p: Proc, c: Choice)
    requires Touches(a)
    ensures Where(ProcStep(w, t, a, p, c), t) == Onto(w, a, p, c)
  {
    hide ProcStep, Drop, PortsOf, Allocated, Released;
    TouchStep(w, t, a, p, c);
    Dropping(w, a.u);
    if a.ReplaceCommit? { Dropping(w, a.o); }
  }

  /** Where the step of an activity on a process leads it. */
  function Leads(w: World, t: Tid, c: Choice): Option<Act>
    requires t in w.acts && !w.acts[t].Notify? && !w.acts[t].DeleteFind? && w.acts[t].u in w.procs
  {
    var a := w.acts[t];
    var p := w.procs[a.u];
    if Touches(a) then Onto(w, a, p, c) else Local(a, p, t, See(w, a, p, c)).next
  }

  lemma MoveLeads(w: World, t: Tid, c: Choice)
    requires Inv(w) && Enabled(w, Move(t, c)) && !w.acts[t].Notify? && !w.acts[t].DeleteFind?
    ensures w.acts[t].u in w.procs && Where(Next(w, Move(t, c)), t) == Leads(w, t, c)
  {
    hide Inv, PointOK, FieldsOK, AllFilled, Local, Advance, ProcStep;
    var a := w.acts[t];
    Facts(w, t, a.u);
    var p := w.procs[a.u];
    if Touches(a) {
      TouchLeads(w, t, a, p, c);
    } else {
      PointIsAdvance(w, t, a, p, c);
      AdvanceLeads(w, t, a.u, Local(a, p, t, See(w, a, p, c)));
    }
  }

  // ----- who is new -----

  predicate Entry(a: Act) {
    || a.CreateRegister? || a.DeleteFind? || a.ReplaceInit?
    || a.UnregPoll? || a.StopperCheck? || a.RunLaunch? || a.ReadyWait?
  }

  lemma LocalSpawns(a: Act, p: Proc, t: Tid, s: Seen)
    requires !a.Notify? && !a.DeleteFind?
    ensures var spawn := Local(a, p, t, s).spawn;
            (!spawn.Zero? ==> Entry(spawn.a)) && (spawn.Two? ==> Entry(spawn.b))
  {
    hide StopStep;
    if a.StopClaim? { ClaimSpawns(p, a.u, t, s.now, a.after); }
  }

  lemma ClaimSpawns(p: Proc, u: Uuid, t: Tid, now: int, after: After)
    ensures StopStep(p, u, t, now, after).spawn.Zero?
  {
  }

  lemma AdvanceBirths(w: World, t: Tid, u: Uuid, e: Effect, x: Tid)
    requires t in w.acts
    ensures w.nextTid <= Advance(w, t, u, e).nextTid
    ensures x !in w.acts && x in Advance(w, t, u, e).acts ==>
              var b := Advance(w, t, u, e).acts[x];
              w.nextTid <= x && ((!e.spawn.Zero? && e.spawn.a == b) || (e.spawn.Two? && e.spawn.b == b))
  {
  }

  lemma TouchBears(w: World, t: Tid, a: Act, p: Proc, c: Choice)
    requires Touches(a) && t in w.acts
    ensures ProcStep(w, t, a, p, c).acts.Keys <= w.acts.Keys && ProcStep(w, t, a, p, c).nextTid == w.nextTid
  {
    hide ProcStep, Drop, PortsOf, Allocated, Released;
    TouchStep(w, t, a, p, c);
    Dropping(w, a.u);
    if a.ReplaceCommit? { Dropping(w, a.o); }
  }

  /** Nobody comes back, and whoever is new is at the beginning of a call or goroutine. */
  lemma Births(w: World, l: Label, x: Tid)
    requires Enabled(w, l) && x !in w.acts
    ensures w.nextTid <= Next(w, l).nextTid
    ensures x in Next(w, l).acts ==> w.nextTid <= x && Entry(Next(w, l).acts[x])
  {
    hide Local, Advance, ProcStep, Entry;
    Entries(l);
    if l.Move? && !w.acts[l.t].Notify? && !w.acts[l.t].DeleteFind? {
      var a := w.acts[l.t];
      if a.u in w.procs {
        var p := w.procs[a.u];
        if Touches(a) {
          TouchBears(w, l.t, a, p, l.c);
        } else {
          var s := See(w, a, p, l.c);
          PointIsAdvance(w, l.t, a, p, l.c);
          AdvanceBirths(w, l.t, a.u, Local(a, p, l.t, s), x);
          LocalSpawns(a, p, l.t, s);
        }
      }
    }
  }

  lemma Entries(l: Label)
    ensures l.CreateCall? ==> Entry(CreateRegister(l.u))
    ensures l.ReplaceCall? ==> Entry(ReplaceInit(l.u))
    ensures l.DeleteCall? ==> Entry(DeleteFind(l.dname, l.want))
  {
  }

  lemma NextIsNew(w: World)
    requires Inv(w)
    ensures w.nextTid !in w.acts
  {
    hide ProcsOK, TableOK, LedgerOK, ActOK;
  }

  lemma KeepsCounting(w: World, l: Label)
    requires Inv(w) && Enabled(w, l)
    ensures w.nextTid <= Next(w, l).nextTid
  {
    hide Inv, Enabled, Next;
    NextIsNew(w);
    Births(w, l, w.nextTid);
  }

  // ----- what a process is given -----

  /** A process has a name and a binary; while it holds ports it has as many as were asked for, in one
      range, and no fewer than it has port arguments. */
  predicate AsAsked(p: Proc) {
    && p.name != "" && p.binary != ""
    && (Holding(p) ==> p.portArgs <= p.count && if p.count > 0 then p.last == p.first + p.count - 1 else PortsOf(p) == {})
  }

  lemma AskedStays(p: Proc, q: Proc)
    requires Later(p, q) && AsAsked(p) && !p.stage.Opened?
    ensures AsAsked(q)
  {
  }

  lemma AskedAtFirst(w: World, l: Label, u: Uuid)
    requires Inv(w) && Enabled(w, l) && u !in w.procs && u in Next(w, l).procs
    ensures AsAsked(Next(w, l).procs[u]) && Next(w, l).procs[u].stage.Opened?
  {
    hide Inv, ProcStep, FindStep;
    if l.Move? && !w.acts[l.t].Notify? && !w.acts[l.t].DeleteFind? {
      var a := w.acts[l.t];
      if a.u in w.procs {
        if Touches(a) { TouchBirths(w, l.t, a, w.procs[a.u], l.c); } else { PassedOn(w, l.t, a, w.procs[a.u], l.c); }
      }
    } else if l.Move? {
      FindKeeps(w, l);
    }
  }

  lemma AskedOnAdmission(w: World, l: Label, u: Uuid)
    requires Inv(w) && Enabled(w, l) && u in w.procs && w.procs[u].stage.Opened? && AsAsked(w.procs[u])
    ensures u in Next(w, l).procs && AsAsked(Next(w, l).procs[u])
  {
    hide Inv, ProcStep, FindStep, PointOK, FieldsOK, AllFilled, Local, AsAsked;
    if l.Move? && !w.acts[l.t].Notify? && !w.acts[l.t].DeleteFind? {
      var a := w.acts[l.t];
      Facts(w, l.t, a.u);
      if Touches(a) {
        TouchPoint(w.procs, l.t, a);
        AskedTouch(w, l.t, a, l.c, u);
      } else {
        PassedOn(w, l.t, a, w.procs[a.u], l.c);
        PastOpened(w.procs, l.t, a, w.procs[a.u]);
      }
    } else {
      FindKeeps(w, l);
    }
  }

  lemma AskedTouch(w: World, t: Tid, a: Act, c: Choice, u: Uuid)
    requires Touches(a) && a.u in w.procs && u in w.procs && w.procs[u].stage.Opened? && AsAsked(w.procs[u])
    requires a.CreateRegister? || a.ReplaceInit? ==> (c.ok ==> CanAllocate(w, w.procs[a.u], c))
    requires a.ReplaceCommit? ==> w.procs[a.u].stage.InFlight?
    ensures u in ProcStep(w, t, a, w.procs[a.u], c).procs && AsAsked(ProcStep(w, t, a, w.procs[a.u], c).procs[u])
  {
    hide ProcStep, Drop, Released, Allocatable, AsAsked, Allocated, PortsOf;
    AllocatedAsAsked(w, w.procs[u], t, c);
    TouchStep(w, t, a, w.procs[a.u], c);
    Dropping(w, a.u);
    if a.ReplaceCommit? { Dropping(w, a.o); }
  }

  lemma AllocatedAsAsked(w: World, p: Proc, t: Tid, c: Choice)
    requires AsAsked(p)
    ensures CanAllocate(w, p, c) ==>
              AsAsked(Allocated(p, c).(stage := Registered)) && AsAsked(Allocated(p, c).(stage := InFlight))
    ensures AsAsked(p.(stage := Gone, closer := Some(t))) && AsAsked(p.(stage := Gone))
  {
    hide Allocatable;
  }

  /** Only the admission of its own call meets a process that has not been admitted. */
  lemma PastOpened(procs: map<Uuid, Proc>, t: Tid, a: Act, p: Proc)
    requires !a.Notify? && !a.DeleteFind? && !Touches(a) && a.u in procs && p == procs[a.u] && PointOK(procs, t, a, p)
    ensures !p.stage.Opened?
  {
  }

  /** So it is in every run. */
  lemma {:induction false} GivenAsAsked(ws: seq<World>, ls: seq<Label>, k: nat, u: Uuid)
    requires IsRun(ws, ls) && k <= |ls| < |ws| && u in ws[k].procs
    ensures AsAsked(ws[k].procs[u])
  {
    hide Inv, Next, Enabled, IsRun, AsAsked, Later;
    if k == 0 {
      NotYet(ws, ls, u);
    } else {
      RunInv(ws, ls, k - 1);
      RunStep(ws, ls, k - 1);
      var w, l := ws[k - 1], ls[k - 1];
      if u !in w.procs {
        AskedAtFirst(w, l, u);
      } else {
        GivenAsAsked(ws, ls, k - 1, u);
        if w.procs[u].stage.Opened? {
          AskedOnAdmission(w, l, u);
        } else {
          StepLater(w, l, u);
          AskedStays(w.procs[u], ws[k].procs[u]);
        }
      }
    }
  }
}
