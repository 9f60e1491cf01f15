/** The invariant of the process manager's state machine, stated activity by activity. */
module ProtocolInv {
  import opened Wrappers
  import opened PortLedger
  import opened Protocol

  predicate Holding(p: Proc) { p.stage.InFlight? || p.stage.Registered? }

  predicate Published(p: Proc) { p.stage.Registered? || p.stage.Gone? }

  /** The log writer is closed, or some activity is bound to close it. */
  predicate Discharged(p: Proc) { p.closed || p.closer.Some? }

  // ----- what an activity at a given point may rely on -----

  ghost predicate AfterOK(procs: map<Uuid, Proc>, t: Tid, u: Uuid, after: After)
    requires u in procs
  {
    match after
    case ToUnregister => Published(procs[u])
    case ToCommit(n) => Published(procs[u]) && Replacing(procs, t, n, u) && procs[n].started
    case ToRelease => procs[u].stage.InFlight? && procs[u].creator == t
    case Return => true
  }

  /** Activity t is about to replace o by its own process u. */
  ghost predicate Replacing(procs: map<Uuid, Proc>, t: Tid, u: Uuid, o: Uuid) {
    && u in procs && o in procs && u != o
    && procs[u].stage.InFlight? && procs[u].creator == t
    && procs[u].name == procs[o].name && Published(procs[o])
  }

  ghost predicate ActOK(procs: map<Uuid, Proc>, t: Tid, a: Act) {
    if a.Notify? || a.DeleteFind? then true
    else a.u in procs && PointOK(procs, t, a, procs[a.u])
  }

  ghost predicate PointOK(procs: map<Uuid, Proc>, t: Tid, a: Act, p: Proc)
    requires !a.Notify? && !a.DeleteFind? && a.u in procs && p == procs[a.u]
  {
    && (a.CreateRegister? || a.ReplaceInit? ==> Fresh(p, t))
    && (!a.CreateRegister? && !a.ReplaceInit? ==> !p.stage.Opened?)
    && (a.CreateNotify? || a.CreateStart? ==> Published(p) && p.creator == t && !p.started)
    && (a.CloseLog? ==> p.stage.Gone?)
    && (a.DeleteUnregister? || a.UnregPoll? || a.UnregRecheck? || a.UnregRemove? ==> Published(p) && Discharged(p))
    && (a.ReplaceCompare? || a.ReplaceStart? ==> Replacing(procs, t, a.u, a.o) && !p.started)
    && (a.ReplaceDropLog? || a.ReplaceDropPorts? || a.ReplaceRelease? ==> p.stage.InFlight? && p.creator == t)
    && (a.ReplaceDropLog? || a.ReplaceDropPorts? ==> !p.started)
    && (a.ReplaceDropPorts? || a.ReplaceRelease? ==> Discharged(p))
    && (a.ReplacePoll? || a.ReplaceCommit? ==> Replacing(procs, t, a.u, a.o) && p.started)
    && (a.ReplaceCommit? ==> Discharged(procs[a.o]))
    && (InStop(a) ==> AfterOK(procs, t, a.u, a.after))
    && (InStop(a) && !a.StopClaim? ==> Discharged(p))
    && (a.RunLaunch? || a.RunWait? || a.RunSet? ==> p.runner == Some(t) && !p.ran)
    && (a.RunLaunch? ==> p.cmd.NotLaunched?)
    && (a.RunWait? ==> p.cmd.Live?)
    && (a.RunSet? ==> p.cmd.Exited?)
    && (a.ReadyWait? || a.ReadySet? ==> p.reader == Some(t) && !p.readied)
  }

  predicate InStop(a: Act) { a.StopClaim? || a.StopClose? || a.StopSend? || a.StopLoad? }

  predicate Fresh(p: Proc, t: Tid) {
    p.stage.Opened? && p.creator == t && !p.started && p.state.Starting? && !p.closed
  }

  // ----- the duties an activity carries -----

  /** The activity's own process u is not yet registered and still has to be settled. */
  predicate OwnsNew(a: Act, u: Uuid) {
    || ((a.CreateRegister? || a.ReplaceInit? || a.ReplaceCompare? || a.ReplaceDropLog? || a.ReplaceDropPorts?
         || a.ReplaceStart? || a.ReplacePoll? || a.ReplaceCommit? || a.ReplaceRelease?) && a.u == u)
    || (InStop(a) && a.after.ToRelease? && a.u == u)
    || (InStop(a) && a.after.ToCommit? && a.after.next == u)
  }

  /** The activity will close u's log writer whatever happens. */
  predicate Closes(a: Act, u: Uuid) {
    && (a.CloseLog? || (InStop(a) && !a.StopClaim?) || InStopper(a))
    && a.u == u
  }

  predicate InStopper(a: Act) {
    || a.StopperCheck? || a.StopperLook? || a.StopperWrite?
    || a.StopperPoll? || a.StopperKill? || a.StopperClose?
  }

  /** The activity claimed the graceful stop and will see u leave Stopping, unless u's
      command is live, in which case the run goroutine will. */
  predicate Settles(a: Act, u: Uuid) {
    && (a.StopperLook? || a.StopperWrite? || ((a.StopSend? || a.StopLoad? || a.StopperCheck?) && a.graceful))
    && a.u == u
  }

  /** u's Start has not been reached yet by the call that owns it. */
  predicate WillStart(a: Act, u: Uuid) {
    && (a.CreateRegister? || a.CreateNotify? || a.CreateStart? || a.ReplaceInit? || a.ReplaceCompare?
        || a.ReplaceDropLog? || a.ReplaceDropPorts? || a.ReplaceStart?)
    && a.u == u
  }

  predicate InRunner(a: Act, u: Uuid) { (a.RunLaunch? || a.RunWait? || a.RunSet?) && a.u == u }

  /** The readiness goroutine, before its verdict. */
  predicate InReader(a: Act, u: Uuid) { (a.ReadyWait? || a.ReadySet?) && a.u == u }

  // ----- who must still act for a process -----

  datatype Role = Owner | Starter | Runner | Reader | Closer | Settler

  predicate Plays(r: Role, a: Act, u: Uuid) {
    match r
    case Owner => OwnsNew(a, u)
    case Starter => WillStart(a, u)
    case Runner => InRunner(a, u)
    case Reader => InReader(a, u)
    case Closer => Closes(a, u)
    case Settler => Settles(a, u)
  }

  predicate RunPending(p: Proc) { p.runner.Some? && !p.ran }

  predicate Needs(r: Role, p: Proc) {
    match r
    case Owner => p.stage.Opened? || p.stage.InFlight?
    case Starter => Holding(p) && !p.started
    case Runner => RunPending(p)
    case Reader => p.reader.Some? && !p.readied
    case Closer => p.closer.Some? && !p.closed
    case Settler => p.state.Stopping? && !RunPending(p)
  }

  function Holder(r: Role, p: Proc): Option<Tid> {
    match r
    case Owner => Some(p.creator)
    case Starter => Some(p.creator)
    case Runner => p.runner
    case Reader => p.reader
    case Closer => p.closer
    case Settler => p.claimer
  }

  predicate Filled(acts: map<Tid, Act>, r: Role, u: Uuid, p: Proc) {
    Needs(r, p) ==>
      var h := Holder(r, p);
      h.Some? && h.value in acts && Plays(r, acts[h.value], u)
  }

  predicate AllFilled(acts: map<Tid, Act>, u: Uuid, p: Proc) {
    && Filled(acts, Owner, u, p) && Filled(acts, Starter, u, p) && Filled(acts, Runner, u, p)
    && Filled(acts, Reader, u, p) && Filled(acts, Closer, u, p) && Filled(acts, Settler, u, p)
  }

  predicate FieldsOK(p: Proc) {
    && (p.state.Stopping? ==> p.deletedAt.Some?)
    && (p.deletedAt.Some? || p.stage.Gone? ==> Discharged(p))
    && (p.stage.Opened? ==> p.first == 0 && p.last == 0 && !p.started)
    && (!p.started ==> p.runner.None? && p.reader.None? && p.cmd.NoCmd? && !p.ran && !p.readied)
    && (p.cmd.NoCmd? ==> p.runner.None?)
    && (p.reader.None? ==> !p.readied)
    && (p.cmd.Live? ==> RunPending(p))
    && (p.state.Starting? && Holding(p) && !RunPending(p) ==> !p.started)
  }

  ghost predicate ActsOK(w: World) {
    forall t :: t in w.acts ==> t < w.nextTid && ActOK(w.procs, t, w.acts[t])
  }

  ghost predicate ProcsOK(w: World) {
    forall u :: u in w.procs ==> FieldsOK(w.procs[u]) && AllFilled(w.acts, u, w.procs[u])
  }

  ghost predicate TableOK(w: World) {
    && (forall n :: n in w.table ==>
          w.table[n] in w.procs && w.procs[w.table[n]].name == n && w.procs[w.table[n]].stage.Registered?)
    && (forall u :: u in w.procs && w.procs[u].stage.Registered? ==> Holds(w.table, w.procs[u].name, u))
  }

  /** free and owner split the range, and owner says exactly what the holders hold. */
  ghost predicate LedgerOK(w: World) {
    && 0 < w.lo <= w.hi
    && w.free + w.owner.Keys == Range(w.lo, w.hi)
    && w.free !! w.owner.Keys
    && (forall x :: x in w.owner ==>
          w.owner[x] in w.procs && Holding(w.procs[w.owner[x]]) && x in PortsOf(w.procs[w.owner[x]]))
    && (forall u, x :: u in w.procs && Holding(w.procs[u]) && x in PortsOf(w.procs[u]) ==>
          x in w.owner && w.owner[x] == u)
  }

  ghost predicate Inv(w: World) { ActsOK(w) && ProcsOK(w) && TableOK(w) && LedgerOK(w) }

  lemma InitInv(w: World)
    requires IsInit(w)
    ensures Inv(w)
  {
  }

  // ----- rely and guarantee -----

  /** What activity `me` may do to a process that others also refer to. */
  predicate Evolves(me: Tid, p: Proc, q: Proc) {
    && q.name == p.name && q.creator == p.creator
    && (me != p.creator ==>
          && (p.stage.Opened? ==> q == p)
          && (p.stage.InFlight? ==> q.stage.InFlight?)
          && q.started == p.started && q.runner == p.runner && q.reader == p.reader)
    && (p.stage.InFlight? ==> !q.stage.Opened?)
    && (p.stage.Opened? ==> me == p.creator || q == p)
    && (Published(p) ==> Published(q)) && (p.stage.Gone? ==> q.stage.Gone?)
    && (p.started ==> q.started)
    && (p.closed ==> q.closed) && (Discharged(p) ==> Discharged(q))
    && (p.runner.Some? ==> q.runner == p.runner && (p.runner != Some(me) ==> q.ran == p.ran && q.cmd == p.cmd))
    && (p.reader.Some? ==> q.reader == p.reader && (p.reader != Some(me) ==> q.readied == p.readied))
  }

  ghost predicate AllEvolve(me: Tid, procs: map<Uuid, Proc>, procs': map<Uuid, Proc>) {
    forall u :: u in procs ==> u in procs' && Evolves(me, procs[u], procs'[u])
  }

  lemma ActStable(me: Tid, procs: map<Uuid, Proc>, procs': map<Uuid, Proc>, t: Tid, a: Act)
    requires AllEvolve(me, procs, procs') && t != me && ActOK(procs, t, a)
    ensures ActOK(procs', t, a)
  {
  }

  function SpawnAt(s: Spawn, n: Tid, x: Tid): Option<Act> {
    if x == n && !s.Zero? then Some(s.a) else if x == n + 1 && s.Two? then Some(s.b) else None
  }

  /** After the step, q's need for r is met by t, by a new goroutine, or by whoever met it before. */
  predicate Fills(r: Role, t: Tid, n: Tid, u: Uuid, p: Proc, e: Effect) {
    Needs(r, e.p) ==>
      var h := Holder(r, e.p);
      && h.Some?
      && (if h.value == t then e.next.Some? && Plays(r, e.next.value, u)
          else if SpawnAt(e.spawn, n, h.value).Some? then Plays(r, SpawnAt(e.spawn, n, h.value).value, u)
          else Needs(r, p) && Holder(r, p) == h)
  }

  /** b takes over what a owed to processes other than u. */
  ghost predicate Inherits(a: Act, b: Option<Act>, u: Uuid) {
    && (forall v :: v != u && OwnsNew(a, v) ==> b.Some? && OwnsNew(b.value, v))
    && (forall v :: v != u ==> !WillStart(a, v) && !InRunner(a, v) && !InReader(a, v) && !Closes(a, v) && !Settles(a, v))
  }

  predicate Moves(t: Tid, n: Tid, u: Uuid, p: Proc, e: Effect) {
    && Evolves(t, p, e.p) && FieldsOK(e.p)
    && Fills(Owner, t, n, u, p, e) && Fills(Starter, t, n, u, p, e) && Fills(Runner, t, n, u, p, e)
    && Fills(Reader, t, n, u, p, e) && Fills(Closer, t, n, u, p, e) && Fills(Settler, t, n, u, p, e)
  }

  predicate SamePlace(p: Proc, q: Proc) {
    q.stage == p.stage && q.name == p.name && q.first == p.first && q.last == p.last
  }

  ghost predicate NextActsOK(procs: map<Uuid, Proc>, t: Tid, n: Tid, e: Effect) {
    && (e.next.Some? ==> ActOK(procs, t, e.next.value))
    && (!e.spawn.Zero? ==> ActOK(procs, n, e.spawn.a))
    && (e.spawn.Two? ==> ActOK(procs, n + 1, e.spawn.b))
  }

  lemma AdvanceActs(w: World, t: Tid, u: Uuid, e: Effect)
    requires ActsOK(w) && t in w.acts && u in w.procs && Evolves(t, w.procs[u], e.p)
    requires NextActsOK(w.procs[u := e.p], t, w.nextTid, e)
    ensures ActsOK(Advance(w, t, u, e))
  {
    var procs' := w.procs[u := e.p];
    forall x | x in w.acts && x != t ensures ActOK(procs', x, w.acts[x]) {
      ActStable(t, w.procs, procs', x, w.acts[x]);
    }
    hide ActOK;
  }

  lemma FilledAfter(w: World, t: Tid, u: Uuid, e: Effect, r: Role)
    requires ActsOK(w) && t in w.acts && u in w.procs
    requires Fills(r, t, w.nextTid, u, w.procs[u], e) && Filled(w.acts, r, u, w.procs[u])
    ensures Filled(Advance(w, t, u, e).acts, r, u, e.p)
  {
    hide ActOK, Plays, Needs, Holder;
  }

  lemma FilledStill(w: World, t: Tid, u: Uuid, e: Effect, r: Role, v: Uuid)
    requires ActsOK(w) && t in w.acts && u in w.procs && v in w.procs && v != u
    requires Inherits(w.acts[t], e.next, u) && Filled(w.acts, r, v, w.procs[v])
    ensures Filled(Advance(w, t, u, e).acts, r, v, w.procs[v])
  {
    hide ActOK, OwnsNew, WillStart, InRunner, InReader, Closes, Settles, Needs, Holder;
  }

  lemma AdvanceProcs(w: World, t: Tid, u: Uuid, e: Effect)
    requires ActsOK(w) && ProcsOK(w) && t in w.acts && u in w.procs
    requires Moves(t, w.nextTid, u, w.procs[u], e) && Inherits(w.acts[t], e.next, u)
    ensures ProcsOK(Advance(w, t, u, e))
  {
    hide ActsOK, Inherits, Filled, Fills, Evolves, FieldsOK;
    forall r ensures Fills(r, t, w.nextTid, u, w.procs[u], e) && Filled(w.acts, r, u, w.procs[u]) ==>
                     Filled(Advance(w, t, u, e).acts, r, u, e.p) {
      if Fills(r, t, w.nextTid, u, w.procs[u], e) && Filled(w.acts, r, u, w.procs[u]) { FilledAfter(w, t, u, e, r); }
    }
    forall v, r | v in w.procs && v != u && Filled(w.acts, r, v, w.procs[v])
      ensures Filled(Advance(w, t, u, e).acts, r, v, w.procs[v])
    {
      FilledStill(w, t, u, e, r, v);
    }
  }

  lemma TableStays(w: World, w': World)
    requires TableOK(w) && w'.table == w.table && w'.procs.Keys == w.procs.Keys
    requires forall v :: v in w.procs ==> SamePlace(w.procs[v], w'.procs[v])
    ensures TableOK(w')
  {
  }

  lemma LedgerStays(w: World, w': World)
    requires LedgerOK(w) && w'.procs.Keys == w.procs.Keys
    requires w'.free == w.free && w'.owner == w.owner && w'.lo == w.lo && w'.hi == w.hi
    requires forall v :: v in w.procs ==>
               PortsOf(w'.procs[v]) == PortsOf(w.procs[v]) && Holding(w'.procs[v]) == Holding(w.procs[v])
    ensures LedgerOK(w')
  {
    hide PortsOf, Holding;
  }

  lemma AdvancePlaces(w: World, t: Tid, u: Uuid, e: Effect)
    requires TableOK(w) && LedgerOK(w) && u in w.procs && SamePlace(w.procs[u], e.p)
    ensures TableOK(Advance(w, t, u, e)) && LedgerOK(Advance(w, t, u, e))
  {
    hide Advance, TableOK, LedgerOK;
    var w' := Advance(w, t, u, e);
    assert w'.procs.Keys == w.procs.Keys;
    TableStays(w, w');
    LedgerStays(w, w');
  }

  lemma AdvanceInv(w: World, t: Tid, u: Uuid, e: Effect)
    requires Inv(w) && t in w.acts && u in w.procs
    requires SamePlace(w.procs[u], e.p)
    requires Moves(t, w.nextTid, u, w.procs[u], e) && Inherits(w.acts[t], e.next, u)
    requires NextActsOK(w.procs[u := e.p], t, w.nextTid, e)
    ensures Inv(Advance(w, t, u, e))
  {
    assert Evolves(t, w.procs[u], e.p);
    hide Moves, Inherits, NextActsOK, ActsOK, ProcsOK, TableOK, LedgerOK, Advance, Evolves, SamePlace;
    AdvanceActs(w, t, u, e);
    AdvanceProcs(w, t, u, e);
    AdvancePlaces(w, t, u, e);
  }

  /** What the invariant says where t stands. */
  lemma Facts(w: World, t: Tid, u: Uuid)
    requires Inv(w) && t in w.acts && !w.acts[t].Notify? && !w.acts[t].DeleteFind? && w.acts[t].u == u
    ensures u in w.procs && t < w.nextTid && FieldsOK(w.procs[u])
    ensures PointOK(w.procs, t, w.acts[t], w.procs[u]) && AllFilled(w.acts, u, w.procs[u])
  {
  }

  /** If it is t that p relies on for r, then a is a point that answers for it; and no
      goroutine that is yet to start is relied on. */
  predicate Bears(r: Role, t: Tid, n: Tid, a: Act, u: Uuid, p: Proc) {
    Needs(r, p) ==>
      && (Holder(r, p) == Some(t) ==> Plays(r, a, u))
      && Holder(r, p).Some? && Holder(r, p).value < n
  }

  lemma BearsAll(w: World, t: Tid, u: Uuid, r: Role)
    requires ActsOK(w) && t in w.acts && u in w.procs && Filled(w.acts, r, u, w.procs[u])
    ensures Bears(r, t, w.nextTid, w.acts[t], u, w.procs[u])
  {
    hide ActOK, Plays, Needs, Holder;
  }

  /** Activity t at point a of process p, seen without the rest of the world. */
  datatype Spot = Spot(procs: map<Uuid, Proc>, t: Tid, a: Act, p: Proc, s: Seen, e: Effect) {
    ghost predicate Known() { Here() && e == Local(a, p, t, s) }

    /** What the invariant says here. */
    ghost predicate Here() {
      && t < s.nextId && !a.Notify? && !a.DeleteFind? && a.u in procs && procs[a.u] == p
      && PointOK(procs, t, a, p) && FieldsOK(p)
      && Bears(Owner, t, s.nextId, a, a.u, p) && Bears(Starter, t, s.nextId, a, a.u, p)
      && Bears(Runner, t, s.nextId, a, a.u, p) && Bears(Reader, t, s.nextId, a, a.u, p) && Bears(Closer, t, s.nextId, a, a.u, p)
      && Bears(Settler, t, s.nextId, a, a.u, p)
    }

    ghost predicate MovesFine()
      requires !a.Notify? && !a.DeleteFind?
    {
      SamePlace(p, e.p) && Moves(t, s.nextId, a.u, p, e)
    }

    ghost predicate NextFine()
      requires !a.Notify? && !a.DeleteFind?
    {
      Inherits(a, e.next, a.u) && NextActsOK(procs[a.u := e.p], t, s.nextId, e)
    }

    /** The step is one that AdvanceInv covers. */
    ghost predicate Fine()
      requires !a.Notify? && !a.DeleteFind?
    {
      MovesFine() && NextFine()
    }

    /** e is a step of the activity as far as other activities and helpers go. */
    ghost predicate Joins()
      requires !a.Notify? && !a.DeleteFind?
    {
      Moves(t, s.nextId, a.u, p, e) && NextFine()
    }
  }

  /** The points whose steps touch the table or the bitmap. */
  predicate Touches(a: Act) {
    a.CreateRegister? || a.ReplaceInit? || a.UnregRemove? || a.ReplaceCommit? || a.ReplaceDropPorts? || a.ReplaceRelease?
  }
}
