/** Locks and channels of the process manager. Every call and goroutine is the sequence of
    lock and channel operations along one of its paths; a state is a set of activities, each
    part-way through its sequence. The one discipline that all of them follow makes every state
    in which a call is in progress able to move. */
module Locking {
  type Tid = nat
  type Uuid = nat

  /** In lock order: Manager.lock, Process.lock, and the locks taken under one of them. */
  datatype Lock = ManagerLock | ProcessLock(u: Uuid) | BitmapLock | CommandLock(u: Uuid) | BroadcastLock

  function Rank(l: Lock): nat {
    match l
    case ManagerLock => 1
    case ProcessLock(_) => 2
    case BitmapLock => 3
    case CommandLock(_) => 3
    case BroadcastLock => 3
  }

  /** The unbuffered channels: processUpdateCh and broadcastCh. */
  datatype Channel = UpdateCh | BroadcastCh

  datatype Op =
    | Acquire(l: Lock, shared: bool)
    | Release(l: Lock)
    | Send(c: Channel)
    | Receive(c: Channel)

  type Path = seq<Op>

  /** A daemon starts over when its path ends. */
  datatype Activity = Activity(path: Path, pc: nat, daemon: bool)

  type State = map<Tid, Activity>

  /** The locks held after the first k operations, with the mode of each. */
  function Held(path: Path, k: nat): map<Lock, bool>
    requires k <= |path|
  {
    if k == 0 then map[]
    else
      var h := Held(path, k - 1);
      match path[k - 1]
      case Acquire(l, shared) => h[l := shared]
      case Release(l) => h - {l}
      case _ => h
  }

  /** Locks are taken in increasing rank, none is held across a channel operation or at the end. */
  ghost predicate Disciplined(path: Path) { Held(path, |path|) == map[] && ProperTo(path, |path|) }

  /** Each of the first n operations is proper. */
  ghost predicate ProperTo(path: Path, n: nat)
    requires n <= |path|
  {
    forall k :: 0 <= k < n ==> Proper(Held(path, k), path[k])
  }

  predicate Proper(held: map<Lock, bool>, op: Op) {
    match op
    case Acquire(l, _) => forall m :: m in held ==> Rank(m) < Rank(l)
    case Release(l) => l in held
    case _ => held == map[]
  }

  ghost predicate Valid(s: State) {
    forall t :: t in s ==> s[t].pc <= |s[t].path| && Disciplined(s[t].path)
  }

  predicate AtEnd(a: Activity) { a.pc >= |a.path| }

  predicate AtOp(a: Activity, op: Op) { a.pc < |a.path| && a.path[a.pc] == op }

  predicate Holds(a: Activity, l: Lock) { a.pc <= |a.path| && l in Held(a.path, a.pc) }

  predicate HoldsAlone(a: Activity, l: Lock) { Holds(a, l) && !Held(a.path, a.pc)[l] }

  /** Go's RWMutex lets nobody in beside a writer. That much is certain of whoever gets a lock. */
  ghost predicate MayAcquire(s: State, t: Tid, l: Lock, shared: bool) {
    forall x :: x in s && x != t ==> if shared then !HoldsAlone(s[x], l) else !Holds(s[x], l)
  }

  /** It also makes a reader wait for a writer that already waits. Who has reached his Acquire may
      or may not have begun to wait; this is who gets the lock even if all of them have. */
  ghost predicate CanAcquire(s: State, t: Tid, l: Lock, shared: bool) {
    if shared then forall x :: x in s && x != t ==> !HoldsAlone(s[x], l) && !AtOp(s[x], Acquire(l, false))
    else forall x :: x in s && x != t ==> !Holds(s[x], l)
  }

  ghost predicate CanStep(s: State, t: Tid)
    requires t in s
  {
    if AtEnd(s[t]) then s[t].daemon && s[t].path != []
    else
      match s[t].path[s[t].pc]
      case Acquire(l, shared) => CanAcquire(s, t, l, shared)
      case Release(_) => true
      case Send(c) => exists x :: x in s && x != t && AtOp(s[x], Receive(c))
      case Receive(c) => exists x :: x in s && x != t && AtOp(s[x], Send(c))
  }

  ghost predicate Stuck(s: State) { forall t :: t in s ==> !CanStep(s, t) }

  // ----- the daemons -----

  /** startMonitoring. The process it hears about differs from round to round. */
  function MonitorRound(u: Uuid): Path {
    [Receive(UpdateCh), Acquire(ProcessLock(u), true), Release(ProcessLock(u)),
     Acquire(ManagerLock, true), Release(ManagerLock), Send(BroadcastCh)]
  }

  /** One turn of the broadcaster's stream loop. */
  const StreamRound: Path := [Receive(BroadcastCh), Acquire(BroadcastLock, false), Release(BroadcastLock)]

  /** Both daemons are there; nobody else receives, and everybody else only notifies the monitor. */
  ghost predicate Served(s: State, monitor: Tid, stream: Tid) {
    && monitor in s && stream in s && monitor != stream
    && s[monitor].daemon && s[stream].daemon
    && (exists u :: s[monitor].path == MonitorRound(u))
    && s[stream].path == StreamRound
    && (forall t :: t in s && t != monitor && t != stream ==>
          !s[t].daemon && OnlyNotifies(s[t].path))
  }

  ghost predicate OnlyNotifies(path: Path) {
    forall op :: op in path && (op.Send? || op.Receive?) ==> op == Send(UpdateCh)
  }

  // ----- progress -----

  /** Who holds a lock is not at the end, nor at a channel, and asks only for higher locks. */
  lemma HoldersGoOn(a: Activity, l: Lock)
    requires Disciplined(a.path) && Holds(a, l)
    ensures a.pc < |a.path| && !a.path[a.pc].Send? && !a.path[a.pc].Receive?
    ensures a.path[a.pc].Acquire? ==> Rank(l) < Rank(a.path[a.pc].l)
  {
    hide Held;
    if a.pc < |a.path| { assert Proper(Held(a.path, a.pc), a.path[a.pc]); }
  }

  /** In a stuck state nobody waits for a lock: the highest lock in use would be free to go. */
  lemma {:induction false} NobodyHolds(s: State, r: nat)
    requires Valid(s) && Stuck(s)
    ensures forall t, l :: t in s && Holds(s[t], l) ==> Rank(l) < 4 - r
    decreases r
  {
    hide Holds, Disciplined, CanAcquire, Rank;
    if r > 0 {
      NobodyHolds(s, r - 1);
      forall t, l | t in s && Holds(s[t], l) ensures Rank(l) < 4 - r {
        var a := s[t];
        HoldersGoOn(a, l);
        if Rank(l) == 4 - r {
          assert !CanStep(s, t);
          SomeoneAcquires(s, t, a.path[a.pc].l, a.path[a.pc].shared);
          assert false;
        }
      }
    } else {
      forall l: Lock ensures Rank(l) < 4 { RankBound(l); }
    }
  }

  lemma RankBound(l: Lock)
    ensures 0 < Rank(l) <= 3
  {
    match l case _ => {}
  }

  /** A lock that nobody holds can be had by somebody who asks for it. */
  lemma SomeoneAcquires(s: State, t: Tid, l: Lock, shared: bool)
    requires t in s && AtOp(s[t], Acquire(l, shared))
    requires forall x :: x in s ==> !Holds(s[x], l)
    ensures !Stuck(s)
  {
    hide Held;
    if shared && !CanAcquire(s, t, l, true) {
      var x :| x in s && x != t && AtOp(s[x], Acquire(l, false));
      assert CanStep(s, x);
    } else {
      assert CanStep(s, t);
    }
  }

  lemma MeetingMoves(s: State, t: Tid, x: Tid, c: Channel)
    requires t in s && x in s && t != x && AtOp(s[t], Send(c)) && AtOp(s[x], Receive(c))
    ensures !Stuck(s)
  {
    assert CanStep(s, t);
  }

  /** In a stuck state everybody is done or waits on a channel. */
  lemma StuckShape(s: State, t: Tid)
    requires Valid(s) && Stuck(s) && t in s
    ensures AtEnd(s[t]) ==> !s[t].daemon || s[t].path == []
    ensures !AtEnd(s[t]) ==> s[t].path[s[t].pc].Send? || s[t].path[s[t].pc].Receive?
  {
    hide Holds, Disciplined, CanAcquire, Rank;
    NobodyHolds(s, 3);
    forall x, l | x in s ensures !Holds(s[x], l) { RankBound(l); }
    assert !CanStep(s, t);
    if !AtEnd(s[t]) && s[t].path[s[t].pc].Acquire? {
      SomeoneAcquires(s, t, s[t].path[s[t].pc].l, s[t].path[s[t].pc].shared);
    }
  }

  /** Whatever else is going on, as long as a call or goroutine has something left to do, or the
      monitor is part-way through a round, somebody can move. */
  lemma NeverStuck(s: State, monitor: Tid, stream: Tid)
    requires Valid(s) && Served(s, monitor, stream)
    requires (exists t :: t in s && !s[t].daemon && !AtEnd(s[t])) || s[monitor].pc != 0
    ensures !Stuck(s)
  {
    if Stuck(s) {
      StuckShape(s, stream);
      StuckShape(s, monitor);
      assert AtOp(s[stream], Receive(BroadcastCh));
      if AtOp(s[monitor], Send(BroadcastCh)) {
        MeetingMoves(s, monitor, stream, BroadcastCh);
      } else {
        var t :| t in s && !s[t].daemon && !AtEnd(s[t]);
        StuckShape(s, t);
        MeetingMoves(s, t, monitor, UpdateCh);
      }
    }
  }

  // ----- steps -----

  /** A lock operation, a rendezvous, a daemon's next round, the arrival of a new activity. Readers and
      writers that have reached a lock nobody holds may get it in any order. */
  datatype Move =
    | Local(t: Tid)
    | Meet(t: Tid, x: Tid, c: Channel)
    | Hear(u: Uuid)
    | Stream
    | Arrive(t: Tid, path: Path)

  ghost predicate Allowed(s: State, monitor: Tid, stream: Tid, m: Move)
    requires monitor in s && stream in s
  {
    match m
    case Local(t) =>
      && t in s && !AtEnd(s[t])
      && var op := s[t].path[s[t].pc];
         (op.Release? || (op.Acquire? && MayAcquire(s, t, op.l, op.shared)))
    case Meet(t, x, c) => t in s && x in s && t != x && AtOp(s[t], Send(c)) && AtOp(s[x], Receive(c))
    case Hear(u) => AtEnd(s[monitor])
    case Stream => AtEnd(s[stream])
    case Arrive(t, path) => t !in s && Disciplined(path) && OnlyNotifies(path)
  }

  function Ahead(s: State, t: Tid): State
    requires t in s
  {
    s[t := s[t].(pc := s[t].pc + 1)]
  }

  ghost function After(s: State, monitor: Tid, stream: Tid, m: Move): State
    requires monitor in s && stream in s && Allowed(s, monitor, stream, m)
  {
    match m
    case Local(t) => Ahead(s, t)
    case Meet(t, x, c) => Ahead(Ahead(s, t), x)
    case Hear(u) => s[monitor := Activity(MonitorRound(u), 0, true)]
    case Stream => s[stream := Activity(StreamRound, 0, true)]
    case Arrive(t, path) => s[t := Activity(path, 0, false)]
  }

  lemma RoundsDisciplined(u: Uuid)
    ensures Disciplined(MonitorRound(u)) && Disciplined(StreamRound)
  {
    var p := MonitorRound(u);
    assert Held(p, 1) == map[];
    assert Held(p, 2) == map[ProcessLock(u) := true];
    assert Held(p, 3) == map[];
    assert Held(p, 4) == map[ManagerLock := true];
    assert Held(p, 5) == map[];
    assert Held(p, 6) == map[];
    var q := StreamRound;
    assert Held(q, 1) == map[];
    assert Held(q, 2) == map[BroadcastLock := false];
    assert Held(q, 3) == map[];
  }

  lemma StepKeepsValid(s: State, monitor: Tid, stream: Tid, m: Move)
    requires Valid(s) && monitor in s && stream in s && Allowed(s, monitor, stream, m)
    ensures Valid(After(s, monitor, stream, m))
  {
    RoundsDisciplined(if m.Hear? then m.u else 0);
    hide Disciplined, MayAcquire, MonitorRound, OnlyNotifies;
  }

  ghost predicate PathsOf(s: State, m: Move, monitor: Tid, stream: Tid, t: Tid, a: Activity) {
    || (t in s && a.path == s[t].path && a.daemon == s[t].daemon)
    || (t !in s && !a.daemon && OnlyNotifies(a.path))
    || (t == monitor && a.daemon && m.Hear? && a.path == MonitorRound(m.u))
    || (t == stream && a.daemon && a.path == StreamRound)
  }

  lemma NobodyLeaves(s: State, monitor: Tid, stream: Tid, m: Move)
    requires monitor in s && stream in s && Allowed(s, monitor, stream, m)
    ensures s.Keys <= After(s, monitor, stream, m).Keys
  {
    hide Disciplined, OnlyNotifies, MayAcquire, AtOp, AtEnd, MonitorRound;
  }

  /** Only a daemon that starts over gets a new path. */
  lemma PathKept(s: State, monitor: Tid, stream: Tid, m: Move, t: Tid)
    requires monitor in s && stream in s && Allowed(s, monitor, stream, m)
    requires t in After(s, monitor, stream, m)
    ensures var a := After(s, monitor, stream, m)[t];
            PathsOf(s, m, monitor, stream, t, a)
  {
    hide Disciplined, OnlyNotifies, MayAcquire, AtOp, AtEnd, MonitorRound;
  }

  /** Every step keeps the state disciplined and served, so NeverStuck holds in all of a run. */
  lemma StepKeepsService(s: State, monitor: Tid, stream: Tid, m: Move)
    requires Valid(s) && Served(s, monitor, stream) && Allowed(s, monitor, stream, m)
    ensures Valid(After(s, monitor, stream, m)) && Served(After(s, monitor, stream, m), monitor, stream)
  {
    hide Valid, After, Allowed, MonitorRound, OnlyNotifies;
    StepKeepsValid(s, monitor, stream, m);
    NobodyLeaves(s, monitor, stream, m);
    var s' := After(s, monitor, stream, m);
    forall t | t in s' ensures PathsOf(s, m, monitor, stream, t, s'[t]) { PathKept(s, monitor, stream, m, t); }
  }

  /** A lock held alone is held by nobody else. */
  ghost predicate Exclusive(s: State) {
    forall t, x, l :: t in s && x in s && t != x && HoldsAlone(s[t], l) ==> !Holds(s[x], l)
  }

  /** A move starts an activity over, or takes it one operation further, or leaves it alone. */
  lemma Advances(s: State, monitor: Tid, stream: Tid, m: Move, t: Tid, a: Activity)
    requires monitor in s && stream in s && Allowed(s, monitor, stream, m)
    requires t in After(s, monitor, stream, m) && a == After(s, monitor, stream, m)[t]
    ensures a.pc == 0 || (t in s && a == s[t]) || (t in s && Steps(s, m, t, a))
  {
    hide Disciplined, OnlyNotifies, MayAcquire, MonitorRound;
  }

  ghost predicate Steps(s: State, m: Move, t: Tid, a: Activity)
    requires t in s
  {
    && !AtEnd(s[t]) && a == s[t].(pc := s[t].pc + 1)
    && var op := s[t].path[s[t].pc];
       (op.Acquire? ==> m == Local(t) && MayAcquire(s, t, op.l, op.shared))
  }

  /** What an activity holds after a move it held before, unless the move was to acquire it. */
  lemma Gains(s: State, monitor: Tid, stream: Tid, m: Move, t: Tid, l: Lock)
    requires monitor in s && stream in s && Allowed(s, monitor, stream, m)
    requires var s' := After(s, monitor, stream, m); t in s' && Holds(s'[t], l)
    ensures t in s
    ensures var a := After(s, monitor, stream, m)[t];
            || (Holds(s[t], l) && HoldsAlone(a, l) == HoldsAlone(s[t], l))
            || (m == Local(t) && MayAcquire(s, t, l, !HoldsAlone(a, l)))
  {
    var a := After(s, monitor, stream, m)[t];
    Advances(s, monitor, stream, m, t, a);
    StartsEmpty(a, l);
    hide *;
    if a != s[t] { Advancing(s[t], l); }
  }

  lemma StartsEmpty(a: Activity, l: Lock)
    ensures a.pc == 0 ==> !Holds(a, l)
  {
    assert Held(a.path, 0) == map[];
  }

  /** The model's locks exclude: what MayAcquire admits never shares a lock that somebody holds alone. */
  lemma StepKeepsExclusion(s: State, monitor: Tid, stream: Tid, m: Move)
    requires Valid(s) && Served(s, monitor, stream) && Exclusive(s) && Allowed(s, monitor, stream, m)
    ensures Exclusive(After(s, monitor, stream, m))
  {
    var s' := After(s, monitor, stream, m);
    hide Served, Valid, After, Allowed, Holds, HoldsAlone;
    forall t, x, l | t in s' && x in s' && t != x && HoldsAlone(s'[t], l) ensures !Holds(s'[x], l) {
      AloneHolds(s'[t], l);
      Gains(s, monitor, stream, m, t, l);
      if Holds(s'[x], l) { Gains(s, monitor, stream, m, x, l); }
    }
  }

  lemma AloneHolds(a: Activity, l: Lock)
    ensures HoldsAlone(a, l) ==> Holds(a, l)
  {
  }

  lemma Advancing(a: Activity, l: Lock)
    requires a.pc < |a.path| && Holds(a.(pc := a.pc + 1), l)
    ensures var b := a.(pc := a.pc + 1);
            || (Holds(a, l) && HoldsAlone(b, l) == HoldsAlone(a, l))
            || a.path[a.pc] == Acquire(l, !HoldsAlone(b, l))
  {
  }

  lemma Acquiring(a: Activity, l: Lock, shared: bool)
    requires AtOp(a, Acquire(l, shared))
    ensures var b := a.(pc := a.pc + 1);
            && Holds(b, l) && HoldsAlone(b, l) == !shared
            && forall m :: m != l ==> Holds(b, m) == Holds(a, m) && HoldsAlone(b, m) == HoldsAlone(a, m)
  {
  }

  /** And it admits no less: whoever comes to acquire a lock may have it exactly where exclusion survives. */
  lemma MayAcquireExactly(s: State, t: Tid, l: Lock, shared: bool)
    requires Exclusive(s) && t in s && AtOp(s[t], Acquire(l, shared))
    ensures MayAcquire(s, t, l, shared) <==> Exclusive(Ahead(s, t))
  {
    Acquiring(s[t], l, shared);
    hide Holds, HoldsAlone, AtOp;
    var s' := Ahead(s, t);
    assert forall x :: x in s && x != t ==> s'[x] == s[x];
    if MayAcquire(s, t, l, shared) {
      forall x, y, m | x in s' && y in s' && x != y && HoldsAlone(s'[x], m) ensures !Holds(s'[y], m) {
        AloneHolds(s'[x], m);
      }
    } else {
      var x :| x in s && x != t && !(if shared then !HoldsAlone(s[x], l) else !Holds(s[x], l));
      assert !Exclusive(s') by { assert if shared then HoldsAlone(s'[x], l) else HoldsAlone(s'[t], l); }
    }
  }
}
