/** The lock and channel operations of every call and goroutine, and that all of them are disciplined. */
module LockPaths {
  import opened Locking

  // ----- pieces -----

  function Under(l: Lock, shared: bool): Path { [Acquire(l, shared), Release(l)] }

  const Notify: Path := [Send(UpdateCh)]

  /** RPCResponse, IsStopped, and the read of p.cmd. */
  function Read(u: Uuid): Path { Under(ProcessLock(u), true) }

  /** Any short critical section that writes a process. */
  function Write(u: Uuid): Path { Under(ProcessLock(u), false) }

  function Repeat(p: Path, n: nat): Path { if n == 0 then [] else p + Repeat(p, n - 1) }

  /** A section under the manager's lock that takes other locks one at a time. */
  function Section(shared: bool, inner: seq<(Lock, bool)>): Path {
    Opened(shared, inner) + [Release(ManagerLock)]
  }

  function Opened(shared: bool, inner: seq<(Lock, bool)>): Path {
    if inner == [] then [Acquire(ManagerLock, shared)]
    else Opened(shared, inner[..|inner| - 1]) + Under(inner[|inner| - 1].0, inner[|inner| - 1].1)
  }

  function Processes(us: seq<Uuid>, shared: bool): seq<(Lock, bool)> {
    seq(|us|, i requires 0 <= i < |us| => (ProcessLock(us[i]), shared))
  }

  const WithBitmap: seq<(Lock, bool)> := [(BitmapLock, false)]

  /** initProcessReplace, registerProcess and the sections that release ports. */
  function PortSection(ports: bool): Path { Section(false, if ports then WithBitmap else []) }

  // ----- calls and goroutines -----

  /** Process.Start, which sets the command's output under its own lock. */
  function Start(u: Uuid, found: bool): Path {
    if found then [Acquire(ProcessLock(u), false)] + Under(CommandLock(u), false) + [Release(ProcessLock(u))]
    else Write(u)
  }

  /** StopWithSignal up to the start of its goroutine. */
  function Stop(u: Uuid, claimed: bool): Path {
    Write(u) + if claimed then Notify + Read(u) else []
  }

  function Create(u: Uuid, registered: bool, ports: bool, started: bool): Path {
    PortSection(ports) + if registered then Notify + Start(u, started) + (if started then [] else Notify) + Read(u) else []
  }

  function Delete(u: Uuid, found: bool, claimed: bool): Path {
    Section(true, []) + if found then Stop(u, claimed) + Read(u) + Section(false, []) else []
  }

  function Unregister(u: Uuid, polls: nat, stopped: bool, removed: bool): Path {
    Repeat(Read(u), polls) + if stopped then PortSection(removed) + Notify else []
  }

  function Cleanup(u: Uuid, claimed: bool): Path { Stop(u, claimed) + Under(BitmapLock, false) }

  datatype ReplaceEnd = Refused | SameBinary | NotStarted | Failed | Changed | Replaced

  /** ports: the admission asks the bitmap; released: the commit finds the old process listed. */
  function Replace(u: Uuid, o: Uuid, end: ReplaceEnd, ports: bool, polls: nat, claimed: bool, claimedOld: bool, released: bool): Path {
    PortSection(ports) +
    match end
    case Refused => []
    case SameBinary => Under(BitmapLock, false) + Read(o)
    case NotStarted => Start(u, false) + Cleanup(u, claimed)
    case Failed => Start(u, true) + Repeat(Read(u), polls) + Cleanup(u, claimed)
    case Changed => Start(u, true) + Repeat(Read(u), polls) + Stop(o, claimedOld) + Section(false, []) + Cleanup(u, claimed)
    case Replaced => Start(u, true) + Repeat(Read(u), polls) + Stop(o, claimedOld) + PortSection(released) + Notify + Read(u)
  }

  /** The goroutine of StopWithSignal. */
  function Stopper(u: Uuid, hasCmd: bool, live: bool, polls: nat, kill: bool): Path {
    if !hasCmd then []
    else
      Under(CommandLock(u), true) +
      if live then Under(CommandLock(u), true) + Repeat(Read(u), polls) + (if kill then Under(CommandLock(u), true) else []) else []
  }

  function RunGoroutine(u: Uuid): Path { Write(u) + Notify }

  function ReadyGoroutine(u: Uuid, healthy: bool, stopped: bool, claimed: bool): Path {
    if healthy then Write(u) + Notify else Read(u) + if stopped then [] else Stop(u, claimed)
  }

  /** getProcessesToUpdateConditions and the notifications that follow it. */
  function ConditionCheck(us: seq<Uuid>, updates: nat): Path { Section(true, Processes(us, false)) + Repeat(Notify, updates) }

  function List(us: seq<Uuid>): Path { Section(true, Processes(us, true)) }

  function Get(u: Uuid, found: bool): Path { Section(true, []) + if found then Read(u) else [] }

  /** Subscribe, and the goroutine that unsubscribes. */
  const Subscription: Path := Under(BroadcastLock, false)

  // ----- discipline -----

  ghost predicate Clean(p: Path) { Disciplined(p) && OnlyNotifies(p) }

  lemma {:induction false} HeldPrefix(a: Path, b: Path, k: nat)
    requires k <= |a|
    ensures Held(a + b, k) == Held(a, k)
  {
    if k > 0 {
      HeldPrefix(a, b, k - 1);
      assert (a + b)[k - 1] == a[k - 1];
    }
  }

  lemma {:induction false} HeldSuffix(a: Path, b: Path, k: nat)
    requires Held(a, |a|) == map[] && k <= |b|
    ensures Held(a + b, |a| + k) == Held(b, k)
  {
    if k == 0 {
      HeldPrefix(a, b, |a|);
    } else {
      HeldSuffix(a, b, k - 1);
      assert (a + b)[|a| + k - 1] == b[k - 1];
    }
  }

  lemma Notifies(a: Path, b: Path)
    requires OnlyNotifies(a) && OnlyNotifies(b)
    ensures OnlyNotifies(a + b)
  {
  }

  lemma ProperPrefix(a: Path, b: Path)
    requires ProperTo(a, |a|)
    ensures ProperTo(a + b, |a|)
  {
    hide Proper, Held;
    forall k | 0 <= k < |a| ensures Proper(Held(a + b, k), (a + b)[k]) {
      HeldPrefix(a, b, k);
      assert (a + b)[k] == a[k];
    }
  }

  lemma ProperSuffix(a: Path, b: Path)
    requires ProperTo(a, |a|) && ProperTo(b, |b|) && Held(a, |a|) == map[]
    ensures ProperTo(a + b, |a + b|)
  {
    ProperPrefix(a, b);
    hide Proper, Held;
    var p := a + b;
    forall k | 0 <= k < |p| ensures Proper(Held(p, k), p[k]) {
      if k >= |a| {
        HeldSuffix(a, b, k - |a|);
        assert p[k] == b[k - |a|];
      }
    }
  }

  lemma Then(a: Path, b: Path)
    requires Clean(a) && Clean(b)
    ensures Clean(a + b)
  {
    hide ProperTo, Held, OnlyNotifies;
    ProperSuffix(a, b);
    HeldSuffix(a, b, |b|);
    Notifies(a, b);
  }

  lemma {:induction false} Repeated(p: Path, n: nat)
    requires Clean(p)
    ensures Clean(Repeat(p, n))
  {
    if n > 0 {
      Repeated(p, n - 1);
      Then(p, Repeat(p, n - 1));
    }
  }

  lemma UnderClean(l: Lock, shared: bool)
    ensures Clean(Under(l, shared))
  {
    var p := Under(l, shared);
    assert Held(p, 1) == map[l := shared];
    assert Held(p, 2) == map[];
  }

  lemma NotifyClean()
    ensures Clean(Notify) && Clean([])
  {
    assert Held(Notify, 1) == map[];
  }

  /** One lock taken and given back under the manager's lock. */
  lemma UnderManager(q: Path, shared: bool, l: Lock, m: bool)
    requires ProperTo(q, |q|) && Held(q, |q|) == map[ManagerLock := shared] && Rank(l) > 1
    ensures var p := q + Under(l, m); ProperTo(p, |p|) && Held(p, |p|) == map[ManagerLock := shared]
  {
    hide Held, Proper;
    var p := q + Under(l, m);
    ProperPrefix(q, Under(l, m));
    HeldPrefix(q, Under(l, m), |q|);
    assert p[|q|] == Acquire(l, m) && p[|q| + 1] == Release(l) && |p| == |q| + 2;
    TakenAndGiven(p, |q|, shared, l, m);
  }

  lemma TakenAndGiven(p: Path, k: nat, shared: bool, l: Lock, m: bool)
    requires k + 2 <= |p| && Held(p, k) == map[ManagerLock := shared] && Rank(l) > 1
    requires p[k] == Acquire(l, m) && p[k + 1] == Release(l)
    ensures Proper(Held(p, k), p[k]) && Proper(Held(p, k + 1), p[k + 1])
    ensures Held(p, k + 2) == map[ManagerLock := shared]
  {
    assert Held(p, k + 1) == Held(p, k)[l := m];
    assert Held(p, k + 2) == Held(p, k + 1) - {l};
  }

  lemma {:induction false} OpenedHolds(shared: bool, inner: seq<(Lock, bool)>)
    requires forall x :: x in inner ==> Rank(x.0) > 1
    ensures var p := Opened(shared, inner); Held(p, |p|) == map[ManagerLock := shared] && ProperTo(p, |p|)
    ensures OnlyNotifies(Opened(shared, inner))
  {
    if inner == [] {
      assert Held([Acquire(ManagerLock, shared)], 1) == map[ManagerLock := shared];
    } else {
      hide Held, Proper, ProperTo, Rank;
      var n := |inner| - 1;
      OpenedHolds(shared, inner[..n]);
      UnderManager(Opened(shared, inner[..n]), shared, inner[n].0, inner[n].1);
      Notifies(Opened(shared, inner[..n]), Under(inner[n].0, inner[n].1));
    }
  }

  lemma SectionClean(shared: bool, inner: seq<(Lock, bool)>)
    requires forall x :: x in inner ==> Rank(x.0) > 1
    ensures Clean(Section(shared, inner))
  {
    OpenedHolds(shared, inner);
    hide Held, ProperTo, OnlyNotifies, Opened;
    var q := Opened(shared, inner);
    Closing(q, shared);
    Notifies(q, [Release(ManagerLock)]);
  }

  lemma Closing(q: Path, shared: bool)
    requires ProperTo(q, |q|) && Held(q, |q|) == map[ManagerLock := shared]
    ensures Disciplined(q + [Release(ManagerLock)])
  {
    hide Held, Proper;
    var p := q + [Release(ManagerLock)];
    ProperPrefix(q, [Release(ManagerLock)]);
    HeldPrefix(q, [Release(ManagerLock)], |q|);
    ReleasedLast(p, shared);
    assert |p| == |q| + 1;
    assert ProperTo(p, |p|);
  }

  lemma ReleasedLast(p: Path, shared: bool)
    requires p != [] && p[|p| - 1] == Release(ManagerLock) && Held(p, |p| - 1) == map[ManagerLock := shared]
    ensures Held(p, |p|) == map[] && Proper(Held(p, |p| - 1), p[|p| - 1])
  {
    assert Held(p, |p|) == Held(p, |p| - 1) - {ManagerLock};
  }

  lemma StartClean(u: Uuid, found: bool)
    ensures Clean(Start(u, found))
  {
    UnderClean(ProcessLock(u), false);
    if found {
      var p := Start(u, found);
      assert Held(p, 1) == map[ProcessLock(u) := false];
      assert Held(p, 2) == map[ProcessLock(u) := false, CommandLock(u) := false];
      assert Held(p, 3) == map[ProcessLock(u) := false];
      assert Held(p, 4) == map[];
    }
  }

  /** The pieces all calls are made of. */
  lemma PiecesClean(u: Uuid, polls: nat, a: bool)
    ensures Clean(Read(u)) && Clean(Write(u)) && Clean(Notify) && Clean([]) && Clean(Repeat(Read(u), polls))
    ensures Clean(PortSection(a)) && Clean(Section(a, [])) && Clean(Start(u, a))
    ensures Clean(Under(BitmapLock, false)) && Clean(Under(CommandLock(u), true)) && Clean(Subscription)
  {
    hide Clean;
    UnderClean(ProcessLock(u), true);
    UnderClean(ProcessLock(u), false);
    UnderClean(BitmapLock, false);
    UnderClean(CommandLock(u), true);
    UnderClean(BroadcastLock, false);
    NotifyClean();
    Repeated(Read(u), polls);
    SectionClean(false, WithBitmap);
    SectionClean(a, []);
    SectionClean(false, []);
    StartClean(u, a);
  }

  lemma StopClean(u: Uuid, claimed: bool)
    ensures Clean(Stop(u, claimed)) && Clean(Cleanup(u, claimed))
  {
    PiecesClean(u, 0, true);
    hide Clean, Read, Write, Notify, Under;
    Then(Notify, Read(u));
    Then(Write(u), if claimed then Notify + Read(u) else []);
    Then(Stop(u, claimed), Under(BitmapLock, false));
  }

  lemma CreateClean(u: Uuid, registered: bool, ports: bool, started: bool)
    ensures Clean(Create(u, registered, ports, started))
  {
    PiecesClean(u, 0, ports);
    PiecesClean(u, 0, started);
    hide Clean, Read, Notify, Start, PortSection;
    var s := if started then [] else Notify;
    Then(Notify, Start(u, started));
    Then(Notify + Start(u, started), s);
    Then(Notify + Start(u, started) + s, Read(u));
    Then(PortSection(ports), if registered then Notify + Start(u, started) + s + Read(u) else []);
  }

  lemma DeleteClean(u: Uuid, found: bool, claimed: bool)
    ensures Clean(Delete(u, found, claimed))
  {
    PiecesClean(u, 0, true);
    PiecesClean(u, 0, false);
    StopClean(u, claimed);
    hide Clean, Read, Stop, Section;
    Then(Stop(u, claimed), Read(u));
    Then(Stop(u, claimed) + Read(u), Section(false, []));
    Then(Section(true, []), if found then Stop(u, claimed) + Read(u) + Section(false, []) else []);
  }

  lemma UnregisterClean(u: Uuid, polls: nat, stopped: bool, removed: bool)
    ensures Clean(Unregister(u, polls, stopped, removed))
  {
    PiecesClean(u, polls, removed);
    hide Clean, Read, Repeat, PortSection, Notify;
    Then(PortSection(removed), Notify);
    Then(Repeat(Read(u), polls), if stopped then PortSection(removed) + Notify else []);
  }

  lemma ReplaceClean(u: Uuid, o: Uuid, end: ReplaceEnd, ports: bool, polls: nat, claimed: bool, claimedOld: bool, released: bool)
    ensures Clean(Replace(u, o, end, ports, polls, claimed, claimedOld, released))
  {
    PiecesClean(u, polls, ports);
    PiecesClean(u, polls, released);
    PiecesClean(u, polls, false);
    PiecesClean(u, polls, true);
    PiecesClean(o, 0, true);
    StopClean(u, claimed);
    StopClean(o, claimedOld);
    hide Clean, Read, Notify, Start, PortSection, Stop, Cleanup, Repeat, Section, Under;
    Then(Under(BitmapLock, false), Read(o));
    Then(Start(u, false), Cleanup(u, claimed));
    var a := Start(u, true) + Repeat(Read(u), polls);
    Then(Start(u, true), Repeat(Read(u), polls));
    Then(a, Cleanup(u, claimed));
    Then(a, Stop(o, claimedOld));
    Then(a + Stop(o, claimedOld), Section(false, []));
    Then(a + Stop(o, claimedOld) + Section(false, []), Cleanup(u, claimed));
    Then(a + Stop(o, claimedOld), PortSection(released));
    Then(a + Stop(o, claimedOld) + PortSection(released), Notify);
    Then(a + Stop(o, claimedOld) + PortSection(released) + Notify, Read(u));
    match end
    case Refused => Then(PortSection(ports), []);
    case SameBinary => Then(PortSection(ports), Under(BitmapLock, false) + Read(o));
    case NotStarted => Then(PortSection(ports), Start(u, false) + Cleanup(u, claimed));
    case Failed => Then(PortSection(ports), a + Cleanup(u, claimed));
    case Changed => Then(PortSection(ports), a + Stop(o, claimedOld) + Section(false, []) + Cleanup(u, claimed));
    case Replaced => Then(PortSection(ports), a + Stop(o, claimedOld) + PortSection(released) + Notify + Read(u));
  }

  lemma StopperClean(u: Uuid, hasCmd: bool, live: bool, polls: nat, kill: bool)
    ensures Clean(Stopper(u, hasCmd, live, polls, kill))
  {
    PiecesClean(u, polls, true);
    hide Clean, Read, Repeat, Under;
    var c := Under(CommandLock(u), true);
    var k := if kill then c else [];
    Then(c, Repeat(Read(u), polls));
    Then(c + Repeat(Read(u), polls), k);
    Then(c, if live then c + Repeat(Read(u), polls) + k else []);
  }

  lemma GoroutinesClean(u: Uuid, healthy: bool, stopped: bool, claimed: bool)
    ensures Clean(RunGoroutine(u)) && Clean(ReadyGoroutine(u, healthy, stopped, claimed))
  {
    PiecesClean(u, 0, true);
    StopClean(u, claimed);
    hide Clean, Read, Write, Stop, Notify;
    Then(Write(u), Notify);
    Then(Read(u), if stopped then [] else Stop(u, claimed));
  }

  lemma ScansClean(us: seq<Uuid>, updates: nat)
    ensures Clean(ConditionCheck(us, updates)) && Clean(List(us))
  {
    SectionClean(true, Processes(us, false));
    SectionClean(true, Processes(us, true));
    NotifyClean();
    Repeated(Notify, updates);
    hide Clean, Section;
    Then(Section(true, Processes(us, false)), Repeat(Notify, updates));
  }

  lemma GetClean(u: Uuid, found: bool)
    ensures Clean(Get(u, found))
  {
    PiecesClean(u, 0, true);
    hide Clean, Read, Section;
    Then(Section(true, []), if found then Read(u) else []);
  }

  /** Every path a call or goroutine of the process manager can take. */
  ghost predicate IsManagerPath(p: Path) {
    || (exists u, a, b, c :: p == Create(u, a, b, c))
    || (exists u, a, b :: p == Delete(u, a, b))
    || (exists u, n, a, b :: p == Unregister(u, n, a, b))
    || (exists u, o, e, a, n, b, c, d :: p == Replace(u, o, e, a, n, b, c, d))
    || (exists u, a, b, n, c :: p == Stopper(u, a, b, n, c))
    || (exists u :: p == RunGoroutine(u))
    || (exists u, a, b, c :: p == ReadyGoroutine(u, a, b, c))
    || (exists us, n :: p == ConditionCheck(us, n))
    || (exists us :: p == List(us))
    || (exists u, a :: p == Get(u, a))
    || p == Subscription
  }

  /** All of them may arrive at any moment of a run that NeverStuck speaks of. */
  lemma ManagerPathsClean(p: Path)
    requires IsManagerPath(p)
    ensures Disciplined(p) && OnlyNotifies(p)
  {
    hide Create, Delete, Unregister, Replace, Stopper, RunGoroutine, ReadyGoroutine, ConditionCheck, List, Get, Subscription,
         Disciplined, OnlyNotifies;
    if u, a, b, c :| p == Create(u, a, b, c) { CreateClean(u, a, b, c); }
    else if u, a, b :| p == Delete(u, a, b) { DeleteClean(u, a, b); }
    else if u, n, a, b :| p == Unregister(u, n, a, b) { UnregisterClean(u, n, a, b); }
    else if u, o, e, a, n, b, c, d :| p == Replace(u, o, e, a, n, b, c, d) { ReplaceClean(u, o, e, a, n, b, c, d); }
    else if u, a, b, n, c :| p == Stopper(u, a, b, n, c) { StopperClean(u, a, b, n, c); }
    else if u :| p == RunGoroutine(u) { GoroutinesClean(u, true, true, true); }
    else if u, a, b, c :| p == ReadyGoroutine(u, a, b, c) { GoroutinesClean(u, a, b, c); }
    else if us, n :| p == ConditionCheck(us, n) { ScansClean(us, n); }
    else if us :| p == List(us) { ScansClean(us, 0); }
    else if u, a :| p == Get(u, a) { GetClean(u, a); }
    else { PiecesClean(0, 0, true); }
  }

  // ----- what the discipline prevents -----

  const Writer: Path := Under(ManagerLock, false)

  /** The monitor is about to look at the table, the stream waits for it, and a has reached a send. */
  function Facing(u: Uuid, a: Activity): State {
    map[0 := Activity(MonitorRound(u), 3, true), 1 := Activity(StreamRound, 0, true), 2 := a]
  }

  /** The same with somebody waiting to write the table. */
  function FacingWithWriter(u: Uuid, a: Activity): State { Facing(u, a)[3 := Activity(Writer, 0, false)] }

  lemma MonitorFaces(u: Uuid, l: Lock)
    ensures var m := Activity(MonitorRound(u), 3, true);
            !Holds(m, l) && AtOp(m, Acquire(ManagerLock, true)) && !AtEnd(m)
  {
    assert Held(MonitorRound(u), 1) == map[];
    assert Held(MonitorRound(u), 2) == map[ProcessLock(u) := true];
    assert Held(MonitorRound(u), 3) == map[];
  }

  lemma StartersFace(l: Lock)
    ensures !Holds(Activity(StreamRound, 0, true), l) && AtOp(Activity(StreamRound, 0, true), Receive(BroadcastCh))
    ensures !Holds(Activity(Writer, 0, false), l) && AtOp(Activity(Writer, 0, false), Acquire(ManagerLock, false))
    ensures OnlyNotifies(Writer)
  {
    StartsEmpty(Activity(StreamRound, 0, true), l);
    StartsEmpty(Activity(Writer, 0, false), l);
  }

  lemma WaitsForLock(s: State, t: Tid, x: Tid, l: Lock, shared: bool)
    requires t in s && x in s && t != x && AtOp(s[t], Acquire(l, shared))
    requires if shared then HoldsAlone(s[x], l) || AtOp(s[x], Acquire(l, false)) else Holds(s[x], l)
    ensures !CanStep(s, t)
  {
    hide Holds, HoldsAlone;
  }

  lemma WaitsForChannel(s: State, t: Tid, c: Channel)
    requires t in s
    requires || (AtOp(s[t], Send(c)) && forall x :: x in s ==> !AtOp(s[x], Receive(c)))
             || (AtOp(s[t], Receive(c)) && forall x :: x in s ==> !AtOp(s[x], Send(c)))
    ensures !CanStep(s, t)
  {
  }

  lemma OneOp(a: Activity, x: Op, y: Op)
    requires AtOp(a, x) && x != y
    ensures !AtOp(a, y)
  {
  }

  /** Only a can hold a lock, and everybody waits for somebody who waits. */
  lemma FacingStuck(s: State, u: Uuid, a: Activity, writer: bool)
    requires s == (if writer then FacingWithWriter(u, a) else Facing(u, a))
    requires !a.daemon && OnlyNotifies(a.path) && AtOp(a, Send(UpdateCh)) && Holds(a, ManagerLock)
    requires writer || HoldsAlone(a, ManagerLock)
    ensures Served(s, 0, 1) && Exclusive(s) && Stuck(s)
  {
    hide Holds, HoldsAlone, MonitorRound, OnlyNotifies, StreamRound, Writer, CanStep, AtOp;
    MonitorFaces(u, ManagerLock);
    StartersFace(ManagerLock);
    forall x | x in s ensures !AtOp(s[x], Receive(UpdateCh)) && !AtOp(s[x], Send(BroadcastCh)) {
      var op := if x == 0 then Acquire(ManagerLock, true) else if x == 1 then Receive(BroadcastCh)
                else if x == 2 then Send(UpdateCh) else Acquire(ManagerLock, false);
      OneOp(s[x], op, Receive(UpdateCh));
      OneOp(s[x], op, Send(BroadcastCh));
    }
    WaitsForChannel(s, 1, BroadcastCh);
    WaitsForChannel(s, 2, UpdateCh);
    if writer {
      WaitsForLock(s, 3, 2, ManagerLock, false);
      WaitsForLock(s, 0, 3, ManagerLock, true);
    } else {
      WaitsForLock(s, 0, 2, ManagerLock, true);
    }
    assert s[0].path == MonitorRound(u);
    forall t, x, l | t in s && x in s && t != x && HoldsAlone(s[t], l) ensures !Holds(s[x], l) {
      MonitorFaces(u, l);
      StartersFace(l);
      AloneHolds(s[t], l);
    }
  }

  /** Any path that notifies the monitor with the manager's lock held can stick for ever: at once
      if it holds the lock alone, and if it shares it as soon as somebody waits to write. */
  lemma SendUnderManagerLockSticks(u: Uuid, a: Activity)
    requires !a.daemon && OnlyNotifies(a.path) && AtOp(a, Send(UpdateCh)) && Holds(a, ManagerLock)
    ensures Served(FacingWithWriter(u, a), 0, 1) && Exclusive(FacingWithWriter(u, a)) && Stuck(FacingWithWriter(u, a))
    ensures HoldsAlone(a, ManagerLock) ==> Served(Facing(u, a), 0, 1) && Exclusive(Facing(u, a)) && Stuck(Facing(u, a))
  {
    hide *;
    FacingStuck(FacingWithWriter(u, a), u, a, true);
    if HoldsAlone(a, ManagerLock) { FacingStuck(Facing(u, a), u, a, false); }
  }

  /** ProcessReplace as it once was: the old process stopped, and the monitor notified, with the
      manager's lock held. */
  const OldReplace: Path := [Acquire(ManagerLock, false), Send(UpdateCh), Release(ManagerLock)]

  lemma OldReplaceGetsStuck(u: Uuid)
    ensures Stuck(Facing(u, Activity(OldReplace, 1, false)))
  {
    assert Held(OldReplace, 1) == map[ManagerLock := false];
    hide Held;
    SendUnderManagerLockSticks(u, Activity(OldReplace, 1, false));
  }
}
