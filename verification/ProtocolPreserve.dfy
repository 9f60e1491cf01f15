/** Every step of the process manager's state machine keeps the invariant. */
module ProtocolPreserve {
  import opened Wrappers
  import opened PortLedger
  import opened Protocol
  import opened ProtocolInv
  import opened ProtocolSteps

  /** The invariant, brought down to the activity that is about to step. */
  lemma Approach(w: World, t: Tid, s: Seen, e: Effect) returns (k: Spot)
    requires Inv(w) && t in w.acts && !w.acts[t].Notify? && !w.acts[t].DeleteFind? && s.nextId == w.nextTid
    ensures w.acts[t].u in w.procs
    ensures k == Spot(w.procs, t, w.acts[t], w.procs[w.acts[t].u], s, e) && k.Here()
  {
    var a := w.acts[t];
    var u := a.u;
    Facts(w, t, u);
    var p := w.procs[u];
    k := Spot(w.procs, t, a, p, s, e);
    forall r | Filled(w.acts, r, u, p) ensures Bears(r, t, w.nextTid, a, u, p) { BearsAll(w, t, u, r); }
    assert k.Here() by { hide Inv, Bears, Filled, PointOK, FieldsOK; }
  }

  lemma LocalInv(w: World, t: Tid, c: Choice)
    requires Inv(w) && t in w.acts && !w.acts[t].Notify? && !w.acts[t].DeleteFind? && !Touches(w.acts[t])
    ensures w.acts[t].u in w.procs
    ensures var a := w.acts[t]; var p := w.procs[a.u];
            Inv(Advance(w, t, a.u, Local(a, p, t, See(w, a, p, c))))
  {
    var a := w.acts[t];
    Facts(w, t, a.u);
    var s := See(w, a, w.procs[a.u], c);
    hide Inv, Spot.Here, PointOK, FieldsOK, AllFilled, Local, Moves, Inherits, NextActsOK, SamePlace, Advance;
    var k := Approach(w, t, s, Local(a, w.procs[a.u], t, s));
    LocalFine(k);
    AdvanceInv(w, t, a.u, k.e);
  }

  // ----- steps that touch the table or the ledger -----

  lemma AllocateLedger(w: World, w': World, u: Uuid)
    requires LedgerOK(w) && u in w.procs && !Holding(w.procs[u])
    requires u in w'.procs && w'.procs == w.procs[u := w'.procs[u]] && Holding(w'.procs[u])
    requires PortsOf(w'.procs[u]) <= w.free && w'.free == w.free - PortsOf(w'.procs[u])
    requires w'.owner == w.owner + map x | x in PortsOf(w'.procs[u]) :: u
    requires w'.lo == w.lo && w'.hi == w.hi
    ensures LedgerOK(w')
  {
    hide PortsOf, Holding;
    var held := PortsOf(w'.procs[u]);
    assert w'.owner.Keys == w.owner.Keys + held;
    forall v, x | v in w'.procs && Holding(w'.procs[v]) && x in PortsOf(w'.procs[v])
      ensures x in w'.owner && w'.owner[x] == v
    {
      if v != u { assert x in w.owner.Keys && x !in w.free; }
    }
  }

  lemma ReleasedIsUnion(w: World, u: Uuid)
    requires LedgerOK(w) && u in w.procs && Holding(w.procs[u])
    ensures var p := w.procs[u]; Released(w.free, w.lo, w.hi, p.first, p.last) == w.free + PortsOf(p)
    ensures PortsOf(w.procs[u]) <= w.owner.Keys && PortsOf(w.procs[u]) !! w.free
  {
    var p := w.procs[u];
    if p.first <= p.last && !(p.first == 0 && p.last == 0) {
      assert p.first in PortsOf(p) && p.last in PortsOf(p);
      assert p.first in Range(w.lo, w.hi) && p.last in Range(w.lo, w.hi);
    } else {
      assert PortsOf(p) == {};
    }
  }

  lemma ReleaseLedger(w: World, w': World, u: Uuid)
    requires LedgerOK(w) && u in w.procs && Holding(w.procs[u])
    requires u in w'.procs && w'.procs == w.procs[u := w'.procs[u]] && !Holding(w'.procs[u])
    requires w'.free == Released(w.free, w.lo, w.hi, w.procs[u].first, w.procs[u].last)
    requires w'.owner == w.owner - PortsOf(w.procs[u])
    requires w'.lo == w.lo && w'.hi == w.hi
    ensures LedgerOK(w')
  {
    ReleasedIsUnion(w, u);
    hide PortsOf, Holding, Released;
    var held := PortsOf(w.procs[u]);
    assert w'.owner.Keys == w.owner.Keys - held;
    forall v, x | v in w'.procs && Holding(w'.procs[v]) && x in PortsOf(w'.procs[v])
      ensures x in w'.owner && w'.owner[x] == v
    {
      assert v != u && x in w.owner && w.owner[x] == v;
      assert x !in held;
    }
  }

  /** Activities and helpers do not depend on the table or the ledger. */
  lemma ActivitiesInv(w: World, w': World, k: Spot)
    requires Inv(w) && k.t in w.acts && w.acts[k.t] == k.a && !k.a.Notify? && !k.a.DeleteFind?
    requires k.procs == w.procs && k.a.u in w.procs && k.p == w.procs[k.a.u] && k.s.nextId == w.nextTid
    requires k.Joins()
    requires var r := Advance(w, k.t, k.a.u, k.e); w'.procs == r.procs && w'.acts == r.acts && w'.nextTid == r.nextTid
    ensures ActsOK(w') && ProcsOK(w')
  {
    assert Evolves(k.t, k.p, k.e.p);
    AdvanceActs(w, k.t, k.a.u, k.e);
    AdvanceProcs(w, k.t, k.a.u, k.e);
    hide Moves, Inherits, NextActsOK, Advance, Evolves, ActOK, FieldsOK, AllFilled, TableOK, LedgerOK;
  }

  lemma ListedTable(w: World, w': World, u: Uuid)
    requires TableOK(w) && u in w.procs && !w.procs[u].stage.Registered?
    requires u in w'.procs && w'.procs == w.procs[u := w'.procs[u]]
    requires w'.procs[u].stage.Registered? && w'.procs[u].name == w.procs[u].name
    requires w.procs[u].name !in w.table && w'.table == w.table[w.procs[u].name := u]
    ensures TableOK(w')
  {
  }

  lemma UnlistedTable(w: World, w': World, u: Uuid)
    requires TableOK(w) && u in w.procs && !w.procs[u].stage.Registered?
    requires u in w'.procs && w'.procs == w.procs[u := w'.procs[u]]
    requires !w'.procs[u].stage.Registered? && w'.table == w.table
    ensures TableOK(w')
  {
  }

  lemma RefuseJoins(k: Spot)
    requires k.Here() && (k.a.CreateRegister? || k.a.ReplaceInit?)
    requires k.e == Goto(k.p.(stage := Gone, closer := Some(k.t)), CloseLog(k.a.u))
    ensures k.Joins()
  {
  }

  lemma RegisterJoins(k: Spot, c: Choice)
    requires k.Here() && k.a.CreateRegister?
    requires k.e == Goto(Allocated(k.p, c).(stage := Registered), CreateNotify(k.a.u))
    ensures k.Joins()
  {
  }

  lemma ReplaceInitJoins(k: Spot, c: Choice, o: Uuid)
    requires k.Here() && k.a.ReplaceInit?
    requires o in k.procs && k.procs[o].name == k.p.name && k.procs[o].stage.Registered?
    requires k.e == Goto(Allocated(k.p, c).(stage := InFlight), ReplaceCompare(k.a.u, o))
    ensures k.Joins()
  {
  }

  lemma DropJoins(k: Spot)
    requires k.Here() && (k.a.ReplaceDropPorts? || k.a.ReplaceRelease?)
    requires k.e == Effect(k.p.(stage := Gone), None, Zero)
    ensures k.Joins()
  {
  }

  lemma EnlistJoins(k: Spot)
    requires k.Here() && k.a.ReplaceCommit?
    requires k.e == Goto(k.p.(stage := Registered), Notify)
    ensures k.Joins()
  {
  }

  function Anywhere(w: World): Seen { Seen(w.nextTid, w.now, false, false, false) }

  lemma RefuseInv(w: World, t: Tid, u: Uuid)
    requires Inv(w) && t in w.acts && (w.acts[t] == CreateRegister(u) || w.acts[t] == ReplaceInit(u))
    ensures u in w.procs && Inv(Refuse(w, t, u, w.procs[u]))
  {
    hide ActsOK, ProcsOK, Spot.Here, Spot.Joins, FieldsOK, PointOK, AllFilled, TableOK, LedgerOK;
    Facts(w, t, u);
    var p := w.procs[u];
    var w' := Refuse(w, t, u, p);
    var k := Approach(w, t, Anywhere(w), Goto(p.(stage := Gone, closer := Some(t)), CloseLog(u)));
    RefuseJoins(k);
    ActivitiesInv(w, w', k);
    FreshHere(w, t, u);
    UnlistedTable(w, w', u);
    LedgerStays(w, w');
  }

  /** A call that has not been admitted yet has a new process. */
  lemma FreshHere(w: World, t: Tid, u: Uuid)
    requires Inv(w) && t in w.acts && (w.acts[t] == CreateRegister(u) || w.acts[t] == ReplaceInit(u))
    ensures u in w.procs && Fresh(w.procs[u], t)
  {
    hide ProcsOK, TableOK, LedgerOK;
  }

  lemma InTable(w: World, name: Name)
    requires Inv(w) && name in w.table
    ensures w.table[name] in w.procs
    ensures w.procs[w.table[name]].name == name && w.procs[w.table[name]].stage.Registered?
  {
    hide ActsOK, ProcsOK, LedgerOK;
  }

  lemma RegisterInv(w: World, t: Tid, u: Uuid, c: Choice)
    requires Inv(w) && t in w.acts && w.acts[t] == CreateRegister(u) && u in w.procs
    requires w.procs[u].name !in w.table && CanAllocate(w, w.procs[u], c) && c.ok
    ensures Inv(RegisterStep(w, t, u, w.procs[u], c))
  {
    hide ActsOK, ProcsOK, Spot.Here, Spot.Joins, TableOK, LedgerOK;
    FreshHere(w, t, u);
    var p := w.procs[u];
    var w' := RegisterStep(w, t, u, p, c);
    var k := Approach(w, t, Anywhere(w), Goto(Allocated(p, c).(stage := Registered), CreateNotify(u)));
    RegisterJoins(k, c);
    ActivitiesInv(w, w', k);
    ListedTable(w, w', u);
    AllocateLedger(w, w', u);
  }

  lemma ReplaceInitInv(w: World, t: Tid, u: Uuid, c: Choice)
    requires Inv(w) && t in w.acts && w.acts[t] == ReplaceInit(u) && u in w.procs
    requires w.procs[u].name in w.table && CanAllocate(w, w.procs[u], c) && c.ok
    ensures Inv(ReplaceInitStep(w, t, u, w.procs[u], c))
  {
    hide ActsOK, ProcsOK, Spot.Here, Spot.Joins, TableOK, LedgerOK;
    var p := w.procs[u];
    var o := w.table[p.name];
    var w' := ReplaceInitStep(w, t, u, p, c);
    FreshHere(w, t, u);
    InTable(w, p.name);
    var k := Approach(w, t, Anywhere(w), Goto(Allocated(p, c).(stage := InFlight), ReplaceCompare(u, o)));
    ReplaceInitJoins(k, c, o);
    ActivitiesInv(w, w', k);
    UnlistedTable(w, w', u);
    AllocateLedger(w, w', u);
  }

  lemma DropInv(w: World, t: Tid, u: Uuid)
    requires Inv(w) && t in w.acts && (w.acts[t] == ReplaceDropPorts(u) || w.acts[t] == ReplaceRelease(u))
    ensures u in w.procs && Inv(End(Drop(w, u), t))
  {
    Facts(w, t, u);
    var p := w.procs[u];
    var w' := End(Drop(w, u), t);
    hide ActsOK, ProcsOK, Spot.Here, Spot.Joins, TableOK, LedgerOK, Released, AllFilled;
    var k := Approach(w, t, Anywhere(w), Effect(p.(stage := Gone), None, Zero));
    DropJoins(k);
    ActivitiesInv(w, w', k);
    UnlistedTable(w, w', u);
    ReleaseLedger(w, w', u);
  }

  lemma EnlistInv(w: World, t: Tid, u: Uuid, o: Uuid)
    requires Inv(w) && t in w.acts && w.acts[t] == ReplaceCommit(u, o)
    requires u in w.procs && w.procs[u].name !in w.table
    ensures Inv(Enlist(w, t, u, w.procs[u]))
  {
    hide ActsOK, ProcsOK, Spot.Here, Spot.Joins, TableOK, LedgerOK;
    var p := w.procs[u];
    var w' := Enlist(w, t, u, p);
    assert p.stage.InFlight? by { Facts(w, t, u); }
    var k := Approach(w, t, Anywhere(w), Goto(p.(stage := Registered), Notify));
    EnlistJoins(k);
    ActivitiesInv(w, w', k);
    ListedTable(w, w', u);
    LedgerStays(w, w');
  }

  // ----- taking a registered process out of the table -----

  function Remove(w: World, u: Uuid): World
    requires u in w.procs
  {
    Drop(w, u).(table := w.table - {w.procs[u].name})
  }

  lemma RemoveActs(w: World, u: Uuid)
    requires ActsOK(w) && u in w.procs && w.procs[u].stage.Registered?
    ensures ActsOK(Remove(w, u))
  {
    var w' := Remove(w, u);
    var nobody := w.nextTid + w.procs[u].creator + 1;
    assert AllEvolve(nobody, w.procs, w'.procs);
    forall t | t in w.acts ensures ActOK(w'.procs, t, w.acts[t]) {
      ActStable(nobody, w.procs, w'.procs, t, w.acts[t]);
    }
    hide ActOK;
  }

  lemma RemoveProcs(w: World, u: Uuid)
    requires ProcsOK(w) && u in w.procs && w.procs[u].stage.Registered? && Discharged(w.procs[u])
    ensures ProcsOK(Remove(w, u))
  {
    hide Plays;
  }

  lemma RemoveTable(w: World, u: Uuid)
    requires TableOK(w) && u in w.procs && w.procs[u].stage.Registered?
    ensures TableOK(Remove(w, u))
  {
    hide Released;
  }

  lemma RemoveInv(w: World, u: Uuid)
    requires Inv(w) && u in w.procs && w.procs[u].stage.Registered? && Discharged(w.procs[u])
    ensures Inv(Remove(w, u))
  {
    RemoveActs(w, u);
    RemoveProcs(w, u);
    RemoveTable(w, u);
    hide ActsOK, ProcsOK, TableOK, LedgerOK, Released;
    ReleaseLedger(w, Remove(w, u), u);
  }

  // ----- activities without a process, and new calls -----

  /** Changing only the activities keeps the invariant when nobody loses a helper. */
  lemma OnlyActsInv(w: World, w': World)
    requires Inv(w) && w' == w.(acts := w'.acts, nextTid := w'.nextTid, now := w'.now)
    requires ActsOK(w')
    requires forall r, v :: v in w.procs && Filled(w.acts, r, v, w.procs[v]) ==> Filled(w'.acts, r, v, w.procs[v])
    ensures Inv(w')
  {
    hide ActsOK, Filled, FieldsOK;
    assert ProcsOK(w');
  }

  lemma FilledTurn(w: World, w': World, t: Tid, r: Role, v: Uuid)
    requires t in w.acts && (w.acts[t].UnregRemove? || w.acts[t].Notify? || w.acts[t].DeleteFind?)
    requires forall x :: x in w.acts && x != t ==> x in w'.acts && w'.acts[x] == w.acts[x]
    requires v in w.procs && Filled(w.acts, r, v, w.procs[v])
    ensures Filled(w'.acts, r, v, w.procs[v])
  {
    hide Needs, Holder;
  }

  /** An activity that nobody relies on may end or turn into anything that is in place. */
  lemma TurnInv(w: World, t: Tid, b: Option<Act>)
    requires Inv(w) && t in w.acts
    requires w.acts[t].UnregRemove? || w.acts[t].Notify? || w.acts[t].DeleteFind?
    requires b.Some? ==> ActOK(w.procs, t, b.value)
    ensures Inv(if b.Some? then To(w, t, b.value) else End(w, t))
  {
    var w' := if b.Some? then To(w, t, b.value) else End(w, t);
    hide ActOK, Filled, FieldsOK, TableOK, LedgerOK, ProcsOK;
    forall r, v | v in w.procs && Filled(w.acts, r, v, w.procs[v]) ensures Filled(w'.acts, r, v, w.procs[v]) {
      FilledTurn(w, w', t, r, v);
    }
    OnlyActsInv(w, w');
  }

  lemma RemoveStepInv(w: World, t: Tid, u: Uuid)
    requires Inv(w) && t in w.acts && w.acts[t] == UnregRemove(u)
    ensures u in w.procs && Inv(RemoveStep(w, t, u, w.procs[u]))
  {
    Facts(w, t, u);
    var p := w.procs[u];
    hide AllFilled, FieldsOK;
    if Holds(w.table, p.name, u) {
      assert p.stage.Registered?;
      RemoveInv(w, u);
      hide Inv, Drop, PointOK;
      TurnInv(Remove(w, u), t, Some(Notify));
    } else {
      hide Inv, Drop, PointOK;
      TurnInv(w, t, Some(Notify));
    }
  }

  lemma CommitInv(w: World, t: Tid, u: Uuid, o: Uuid)
    requires Inv(w) && t in w.acts && w.acts[t] == ReplaceCommit(u, o)
    ensures u in w.procs && Inv(CommitStep(w, t, u, o, w.procs[u]))
  {
    hide AllFilled, FieldsOK, Inv;
    Facts(w, t, u);
    var p := w.procs[u];
    assert Replacing(w.procs, t, u, o) && Discharged(w.procs[o]);
    hide PointOK;
    if p.name !in w.table {
      hide Enlist;
      EnlistInv(w, t, u, o);
    } else if w.table[p.name] == o {
      InTable(w, p.name);
      RemoveInv(w, o);
      hide Released, PortsOf;
      var w1 := Remove(w, o);
      assert w1.table[p.name := u] == w.table[p.name := u];
      assert Enlist(w1, t, u, p) == Enlist(Drop(w, o), t, u, p);
      hide Enlist;
      EnlistInv(w1, t, u, o);
    } else {
      BackOutInv(w, t, u, o);
    }
  }

  lemma BackOutJoins(k: Spot)
    requires k.Here() && k.a.ReplaceCommit? && k.e == Goto(k.p, StopClaim(k.a.u, k.s.now, ToRelease))
    ensures k.Joins()
  {
  }

  lemma BackOutInv(w: World, t: Tid, u: Uuid, o: Uuid)
    requires Inv(w) && t in w.acts && w.acts[t] == ReplaceCommit(u, o)
    ensures Inv(To(w, t, StopClaim(u, w.now, ToRelease)))
  {
    hide Spot.Here, Spot.Joins, TableOK, LedgerOK;
    Facts(w, t, u);
    var k := Approach(w, t, Anywhere(w), Goto(w.procs[u], StopClaim(u, w.now, ToRelease)));
    BackOutJoins(k);
    hide ActsOK, ProcsOK;
    var w' := To(w, t, StopClaim(u, w.now, ToRelease));
    assert w.procs[u := w.procs[u]] == w.procs;
    ActivitiesInv(w, w', k);
    TableStays(w, w');
    LedgerStays(w, w');
  }

  lemma FindInv(w: World, t: Tid, name: Name, want: Option<Uuid>)
    requires Inv(w) && t in w.acts && w.acts[t] == DeleteFind(name, want)
    ensures Inv(FindStep(w, t, name, want))
  {
    hide Inv, ActOK, To, End;
    if name !in w.table || (want.Some? && want.value != w.table[name]) {
      TurnInv(w, t, None);
    } else {
      var a := StopClaim(w.table[name], w.now, ToUnregister);
      FoundOK(w, t, name, a);
      TurnInv(w, t, Some(a));
    }
  }

  lemma FoundOK(w: World, t: Tid, name: Name, a: Act)
    requires Inv(w) && name in w.table && a == StopClaim(w.table[name], w.now, ToUnregister)
    ensures ActOK(w.procs, t, a)
  {
    hide ActsOK, ProcsOK, LedgerOK;
  }

  lemma OpenActs(w: World, u: Uuid, p: Proc, a: Act)
    requires ActsOK(w) && u !in w.procs && ActOK(w.procs[u := p], w.nextTid, a)
    ensures ActsOK(Fork(Put(w, u, p), a))
  {
    hide ActOK;
    var procs' := w.procs[u := p];
    SameEvolves(w.nextTid, w.procs, procs');
    forall t | t in w.acts ensures ActOK(procs', t, w.acts[t]) {
      ActStable(w.nextTid, w.procs, procs', t, w.acts[t]);
    }
  }

  lemma SameEvolves(me: Tid, procs: map<Uuid, Proc>, procs': map<Uuid, Proc>)
    requires forall u :: u in procs ==> u in procs' && procs'[u] == procs[u]
    ensures AllEvolve(me, procs, procs')
  {
  }

  lemma OpenProcs(w: World, u: Uuid, p: Proc, a: Act)
    requires ActsOK(w) && ProcsOK(w) && FieldsOK(p) && AllFilled(Fork(w, a).acts, u, p)
    ensures ProcsOK(Fork(Put(w, u, p), a))
  {
    hide ActsOK, ActOK, Filled, FieldsOK;
    FilledFork(w, a);
  }

  lemma OpenPlaces(w: World, u: Uuid, p: Proc, a: Act)
    requires TableOK(w) && LedgerOK(w) && u !in w.procs && p.stage.Opened?
    ensures TableOK(Fork(Put(w, u, p), a)) && LedgerOK(Fork(Put(w, u, p), a))
  {
    hide PortsOf;
  }

  lemma NewIsReady(w: World, l: Label, a: Act)
    requires Enabled(w, l) && (l.CreateCall? || l.ReplaceCall?)
    requires a == if l.CreateCall? then CreateRegister(l.u) else ReplaceInit(l.u)
    ensures var p := NewProc(l, w.nextTid);
            FieldsOK(p) && AllFilled(Fork(w, a).acts, l.u, p) && ActOK(w.procs[l.u := p], w.nextTid, a)
  {
  }

  lemma OpenInv(w: World, l: Label)
    requires Inv(w) && Enabled(w, l) && (l.CreateCall? || l.ReplaceCall?)
    ensures Inv(Next(w, l))
  {
    hide ActsOK, ProcsOK, TableOK, LedgerOK, ActOK, FieldsOK, AllFilled, Put, Fork;
    var u, p := l.u, NewProc(l, w.nextTid);
    var a := if l.CreateCall? then CreateRegister(u) else ReplaceInit(u);
    NewIsReady(w, l, a);
    OpenActs(w, u, p, a);
    OpenProcs(w, u, p, a);
    OpenPlaces(w, u, p, a);
  }

  /** Every step of every activity, and every new call, keeps the invariant. */
  lemma NextInv(w: World, l: Label)
    requires Inv(w) && Enabled(w, l)
    ensures Inv(Next(w, l))
  {
    hide Inv, Next, Enabled;
    match l
    case CreateCall(_, _, _, _, _) => OpenInv(w, l);
    case ReplaceCall(_, _, _, _, _) => OpenInv(w, l);
    case DeleteCall(name, want) => DeleteCallInv(w, name, want);
    case Tick(ms) => TickInv(w, ms);
    case Move(t, c) => MoveInv(w, t, c);
  }

  lemma DeleteCallInv(w: World, name: Name, want: Option<Uuid>)
    requires Inv(w)
    ensures Inv(Next(w, DeleteCall(name, want)))
  {
    hide ActOK, Filled, FieldsOK, LedgerOK, TableOK;
    DeleteFindOK(w, name, want);
    FilledFork(w, DeleteFind(name, want));
    OnlyActsInv(w, Next(w, DeleteCall(name, want)));
  }

  lemma TickInv(w: World, ms: nat)
    requires Inv(w)
    ensures Inv(Next(w, Tick(ms)))
  {
    hide ActOK, Filled, FieldsOK, LedgerOK, TableOK;
    OnlyActsInv(w, Next(w, Tick(ms)));
  }

  lemma DeleteFindOK(w: World, name: Name, want: Option<Uuid>)
    ensures ActOK(w.procs, w.nextTid, DeleteFind(name, want))
  {
  }

  lemma FilledFork(w: World, a: Act)
    requires ActsOK(w)
    ensures forall r, v :: v in w.procs && Filled(w.acts, r, v, w.procs[v]) ==> Filled(Fork(w, a).acts, r, v, w.procs[v])
  {
    hide ActOK, Plays, Needs, Holder;
  }

  lemma MoveInv(w: World, t: Tid, c: Choice)
    requires Inv(w) && Enabled(w, Move(t, c))
    ensures Inv(Next(w, Move(t, c)))
  {
    hide Inv, Advance, Local, FindStep, RegisterStep, ReplaceInitStep, RemoveStep, CommitStep, CanAllocate, Refuse;
    var a := w.acts[t];
    match a
    case DeleteFind(name, want) => FindInv(w, t, name, want);
    case Notify => TurnInv(w, t, None);
    case CreateRegister(u) => RegisterAny(w, t, u, c);
    case ReplaceInit(u) => ReplaceInitAny(w, t, u, c);
    case UnregRemove(u) => RemoveStepInv(w, t, u);
    case ReplaceCommit(u, o) => CommitInv(w, t, u, o);
    case ReplaceDropPorts(u) => DropInv(w, t, u);
    case ReplaceRelease(u) => DropInv(w, t, u);
    case _ => LocalInv(w, t, c);
  }

  lemma RegisterAny(w: World, t: Tid, u: Uuid, c: Choice)
    requires Inv(w) && t in w.acts && w.acts[t] == CreateRegister(u)
    requires c.ok ==> u in w.procs && CanAllocate(w, w.procs[u], c)
    ensures u in w.procs && Inv(RegisterStep(w, t, u, w.procs[u], c))
  {
    hide Inv, CanAllocate, Refuse;
    RefuseInv(w, t, u);
    if w.procs[u].name !in w.table && c.ok { RegisterInv(w, t, u, c); }
  }

  lemma ReplaceInitAny(w: World, t: Tid, u: Uuid, c: Choice)
    requires Inv(w) && t in w.acts && w.acts[t] == ReplaceInit(u)
    requires c.ok ==> u in w.procs && CanAllocate(w, w.procs[u], c)
    ensures u in w.procs && Inv(ReplaceInitStep(w, t, u, w.procs[u], c))
  {
    hide Inv, CanAllocate, Refuse;
    RefuseInv(w, t, u);
    if w.procs[u].name in w.table && c.ok { ReplaceInitInv(w, t, u, c); }
  }
}
