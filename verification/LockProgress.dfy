/** Whole runs of the process manager's calls and goroutines: no deadlock, and no livelock
    either, for every call ends after boundedly many moves. */
module LockProgress {
  import opened Locking
  import opened LockPaths

  const MONITOR: Tid := 0
  const STREAM: Tid := 1

  /** Only the two daemons, each waiting. */
  function Idle(u: Uuid): State {
    map[MONITOR := Activity(MonitorRound(u), 0, true), STREAM := Activity(StreamRound, 0, true)]
  }

  ghost predicate IsRun(s: State, moves: seq<Move>)
    decreases |moves|
  {
    moves == [] || (Legal(s, moves[0]) && IsRun(After(s, MONITOR, STREAM, moves[0]), moves[1..]))
  }

  /** What arrives is one of the manager's own calls or goroutines. */
  ghost predicate Legal(s: State, m: Move) {
    && MONITOR in s && STREAM in s && Allowed(s, MONITOR, STREAM, m)
    && (m.Arrive? ==> IsManagerPath(m.path))
  }

  ghost function End(s: State, moves: seq<Move>): State
    requires IsRun(s, moves)
    decreases |moves|
  {
    if moves == [] then s else End(After(s, MONITOR, STREAM, moves[0]), moves[1..])
  }

  ghost predicate Good(s: State) { Valid(s) && Served(s, MONITOR, STREAM) && Exclusive(s) }

  lemma IdleGood(u: Uuid)
    ensures Good(Idle(u))
  {
    RoundsDisciplined(u);
    assert Idle(u)[MONITOR].path == MonitorRound(u);
    forall a: Activity, l: Lock | a.pc == 0 ensures !Holds(a, l) { StartsEmpty(a, l); }
    hide Disciplined, Held, Holds, MonitorRound;
  }

  lemma StepGood(s: State, m: Move)
    requires Good(s) && Legal(s, m)
    ensures Good(After(s, MONITOR, STREAM, m))
  {
    hide Valid, Served, Exclusive, Allowed, After, IsManagerPath;
    StepKeepsService(s, MONITOR, STREAM, m);
    StepKeepsExclusion(s, MONITOR, STREAM, m);
  }

  // ----- a measure of what is left to do -----

  /** Weights: a notification of the monitor starts a round, a broadcast starts a turn of the stream. */
  function Cost(a: Activity, t: Tid): int {
    if t == MONITOR then if a.pc == 0 then 0 else 4 * (7 - a.pc)
    else if t == STREAM then if a.pc == 0 then 0 else 4 - a.pc
    else 25 * (|a.path| - a.pc)
  }

  /** The cost of the activities numbered below n. */
  function Work(s: State, n: nat): int {
    if n == 0 then 0 else Work(s, n - 1) + if n - 1 in s then Cost(s[n - 1], n - 1) else 0
  }

  lemma {:induction false} WorkOfUpdate(s: State, t: Tid, a: Activity, n: nat)
    ensures Work(s[t := a], n) ==
            Work(s, n) + if t < n then Cost(a, t) - (if t in s then Cost(s[t], t) else 0) else 0
  {
    hide Cost;
    if n > 0 { WorkOfUpdate(s, t, a, n - 1); }
  }

  lemma {:induction false} WorkNonNegative(s: State, n: nat)
    requires Good(s)
    ensures Work(s, n) >= 0
  {
    hide Exclusive, Disciplined;
    if n > 0 {
      WorkNonNegative(s, n - 1);
      if n - 1 in s { assert s[n - 1].pc <= |s[n - 1].path|; }
    }
  }

  /** What a move adds to the work there is. */
  function Brought(m: Move): nat { if m.Arrive? then 25 * |m.path| else 0 }

  /** Everybody's number is below n. */
  predicate Below(m: Move, n: nat) { m.Arrive? ==> m.t < n }

  lemma MonitorPath(s: State)
    requires Good(s)
    ensures |s[MONITOR].path| == 6 && |s[STREAM].path| == 3
    ensures s[MONITOR].pc <= 6 && s[STREAM].pc <= 3
    ensures forall c :: AtOp(s[MONITOR], Send(c)) ==> c == BroadcastCh && s[MONITOR].pc == 5
    ensures forall c :: AtOp(s[MONITOR], Receive(c)) ==> c == UpdateCh && s[MONITOR].pc == 0
    ensures forall c :: AtOp(s[STREAM], Receive(c)) ==> c == BroadcastCh && s[STREAM].pc == 0
    ensures forall c :: !AtOp(s[STREAM], Send(c))
  {
    hide Exclusive, Disciplined, OnlyNotifies;
  }

  lemma OthersNotify(s: State, t: Tid, c: Channel)
    requires Good(s) && t in s && t != MONITOR && t != STREAM
    ensures !AtOp(s[t], Receive(c)) && (AtOp(s[t], Send(c)) ==> c == UpdateCh)
  {
    hide Exclusive, Valid;
    assert OnlyNotifies(s[t].path);
    assert !AtEnd(s[t]) ==> s[t].path[s[t].pc] in s[t].path;
  }

  /** A call meets the monitor, or the monitor the stream. */
  lemma WhoMeets(s: State, t: Tid, x: Tid, c: Channel)
    requires Good(s) && t in s && x in s && t != x && AtOp(s[t], Send(c)) && AtOp(s[x], Receive(c))
    ensures !AtEnd(s[t])
    ensures || (c == UpdateCh && t != MONITOR && t != STREAM && x == MONITOR && s[x].pc == 0)
            || (c == BroadcastCh && t == MONITOR && s[t].pc == 5 && x == STREAM && s[x].pc == 0)
  {
    MonitorPath(s);
    if t != MONITOR && t != STREAM { OthersNotify(s, t, c); }
    if x != MONITOR && x != STREAM { OthersNotify(s, x, c); }
    hide *;
  }

  lemma MeetWork(s: State, t: Tid, x: Tid, c: Channel, n: nat)
    requires Good(s) && t in s && x in s && t != x && AtOp(s[t], Send(c)) && AtOp(s[x], Receive(c))
    requires t < n && x < n
    ensures Work(Ahead(Ahead(s, t), x), n) < Work(s, n)
  {
    hide Good, Work, AtOp;
    WhoMeets(s, t, x, c);
    var a, b := s[t].(pc := s[t].pc + 1), s[x].(pc := s[x].pc + 1);
    if c == UpdateCh {
      assert Cost(a, t) == Cost(s[t], t) - 25 && Cost(b, x) == Cost(s[x], x) + 24;
    } else {
      assert Cost(a, t) == Cost(s[t], t) - 4 && Cost(b, x) == Cost(s[x], x) + 3;
    }
    hide Cost;
    assert Ahead(s, t)[x] == s[x];
    WorkOfUpdate(s, t, a, n);
    WorkOfUpdate(Ahead(s, t), x, b, n);
  }

  lemma LocalWork(s: State, t: Tid, n: nat)
    requires Good(s) && t in s && t < n && !AtEnd(s[t]) && (forall c :: !AtOp(s[t], Receive(c)))
    ensures Work(Ahead(s, t), n) < Work(s, n)
  {
    MonitorPath(s);
    WaitingAtStart(s);
    hide Good, Work, AtOp;
    WorkOfUpdate(s, t, s[t].(pc := s[t].pc + 1), n);
  }

  lemma WaitingAtStart(s: State)
    requires Good(s)
    ensures s[MONITOR].pc == 0 ==> AtOp(s[MONITOR], Receive(UpdateCh))
    ensures s[STREAM].pc == 0 ==> AtOp(s[STREAM], Receive(BroadcastCh))
  {
    hide Exclusive, Valid, OnlyNotifies;
  }

  lemma RestartWork(s: State, t: Tid, path: Path, n: nat)
    requires Good(s) && (t == MONITOR || t == STREAM) && t < n && AtEnd(s[t])
    ensures Work(s[t := Activity(path, 0, true)], n) < Work(s, n)
  {
    MonitorPath(s);
    hide Good, Work;
    WorkOfUpdate(s, t, Activity(path, 0, true), n);
  }

  /** Every move uses work up; only an arrival brings some. */
  lemma StepWork(s: State, m: Move, n: nat)
    requires Good(s) && Legal(s, m) && Below(m, n) && (forall t :: t in s ==> t < n)
    ensures Work(After(s, MONITOR, STREAM, m), n) <= Work(s, n) + Brought(m) - if m.Arrive? then 0 else 1
    ensures forall t :: t in After(s, MONITOR, STREAM, m) ==> t < n
  {
    assert MONITOR < n && STREAM < n;
    hide Good, IsManagerPath, Work, CanStep, Disciplined, MonitorRound, Ahead;
    match m
    case Local(t) => LocalWork(s, t, n); Aheads(s, t);
    case Meet(t, x, c) => MeetWork(s, t, x, c, n); Aheads(s, t); Aheads(Ahead(s, t), x);
    case Hear(u) => RestartWork(s, MONITOR, MonitorRound(u), n);
    case Stream => RestartWork(s, STREAM, StreamRound, n);
    case Arrive(t, path) => WorkOfUpdate(s, t, Activity(path, 0, false), n);
  }

  lemma Aheads(s: State, t: Tid)
    requires t in s
    ensures Ahead(s, t).Keys == s.Keys
  {
  }

  function Moves(moves: seq<Move>): nat {
    if moves == [] then 0 else (if moves[0].Arrive? then 0 else 1) + Moves(moves[1..])
  }

  function AllBrought(moves: seq<Move>): nat {
    if moves == [] then 0 else Brought(moves[0]) + AllBrought(moves[1..])
  }

  lemma {:induction false} RunWork(s: State, moves: seq<Move>, n: nat)
    requires Good(s) && IsRun(s, moves) && (forall t :: t in s ==> t < n) && (forall m :: m in moves ==> Below(m, n))
    ensures Good(End(s, moves))
    ensures Moves(moves) + Work(End(s, moves), n) <= Work(s, n) + AllBrought(moves)
    decreases |moves|
  {
    if moves != [] {
      var s' := After(s, MONITOR, STREAM, moves[0]);
      hide Good, Legal, After, Work, Below;
      StepGood(s, moves[0]);
      StepWork(s, moves[0], n);
      RunWork(s', moves[1..], n);
    }
  }

  /** The move can be made even if everybody who has reached a lock already waits for it. */
  ghost predicate Sure(s: State, m: Move) { m.Local? ==> m.t in s && CanStep(s, m.t) }

  /** Nothing is sure to happen any more unless a new call arrives. */
  ghost predicate Quiet(s: State) { forall m: Move :: Legal(s, m) && Sure(s, m) ==> m.Arrive? }

  /** A state in which somebody can step has a move. */
  lemma SomeMove(s: State)
    requires Good(s) && !Stuck(s)
    ensures !Quiet(s)
  {
    hide Exclusive, Disciplined, OnlyNotifies, MonitorRound, IsManagerPath, Holds, HoldsAlone;
    var t :| t in s && CanStep(s, t);
    var a := s[t];
    if AtEnd(a) {
      assert t == MONITOR || t == STREAM;
      var m := if t == MONITOR then Hear(0) else Stream;
      assert Legal(s, m) && Sure(s, m);
    } else {
      match a.path[a.pc]
      case Send(c) =>
        var x :| x in s && x != t && AtOp(s[x], Receive(c));
        assert Legal(s, Meet(t, x, c)) && Sure(s, Meet(t, x, c));
      case Receive(c) =>
        var x :| x in s && x != t && AtOp(s[x], Send(c));
        assert Legal(s, Meet(x, t, c)) && Sure(s, Meet(x, t, c));
      case Acquire(l, shared) =>
        AloneMeansHolding(s, l);
        assert Legal(s, Local(t)) && Sure(s, Local(t));
      case Release(_) =>
        assert Legal(s, Local(t)) && Sure(s, Local(t));
    }
  }

  lemma AloneMeansHolding(s: State, l: Lock)
    ensures forall x :: x in s && HoldsAlone(s[x], l) ==> Holds(s[x], l)
  {
  }

  /** Deadlock and livelock freedom over whole runs. However the manager's calls and goroutines
      arrive and interleave, and in whatever order they get the locks, no lock that is held alone
      is shared, the number of moves is bounded by what arrived, and when nothing is sure to move
      everybody has finished. */
  lemma EveryCallFinishes(u: Uuid, moves: seq<Move>, n: nat)
    requires IsRun(Idle(u), moves) && n >= 2 && (forall m :: m in moves ==> Below(m, n))
    ensures Exclusive(End(Idle(u), moves))
    ensures Moves(moves) <= AllBrought(moves)
    ensures Quiet(End(Idle(u), moves)) ==>
              forall t :: t in End(Idle(u), moves) && t != MONITOR && t != STREAM ==> AtEnd(End(Idle(u), moves)[t])
  {
    var s := End(Idle(u), moves);
    IdleGood(u);
    RunWork(Idle(u), moves, n);
    WorkNonNegative(s, n);
    IdleWork(u, n);
    assert Exclusive(s);
    hide Valid, Exclusive, IsRun, End, Quiet, Stuck, CanStep, MonitorRound;
    if Quiet(s) {
      if !Stuck(s) {
        SomeMove(s);
        assert false;
      }
      forall t | t in s && t != MONITOR && t != STREAM ensures AtEnd(s[t]) {
        if !AtEnd(s[t]) { NeverStuck(s, MONITOR, STREAM); }
      }
    }
  }

  lemma {:induction false} IdleWork(u: Uuid, n: nat)
    ensures Work(Idle(u), n) == 0
  {
    hide MonitorRound;
    if n > 0 { IdleWork(u, n - 1); }
  }
}
