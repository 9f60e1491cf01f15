/** The lifecycle bounds are attained: a stop claimed before the process is up, a command that
    fails, and a readiness goroutine that then reports it running. */
module ProtocolExtremes {
  import opened Wrappers
  import opened PortLedger
  import opened Protocol
  import opened ProtocolInv
  import opened ProtocolTheorems

  const P: Name := "p"
  const OK: Choice := Choice(true, 0)

  const FRESH: Proc :=
    Proc(P, "b", 0, 0, 0, 0, Starting, None, NoCmd, false, Opened, 0, false, None, false, None, false, None, None)
  const LISTED: Proc := FRESH.(stage := Stage.Registered)
  const STARTED: Proc :=
    LISTED.(cmd := NotLaunched, started := true, runner := Some(1), reader := Some(2))
  const CLAIMED: Proc := STARTED.(state := Stopping, deletedAt := Some(0), closer := Some(3), claimer := Some(3))
  const FAILED: Proc := CLAIMED.(state := Error, cmd := Exited, ran := true)
  const REVIVED: Proc := FAILED.(state := Running, readied := true)

  const START: World := World(1, 1, map[], Range(1, 1), map[], map[], 0, 0, map[])

  const BEGUN: map<Tid, Act> := map[1 := RunLaunch(0), 2 := ReadyWait(0)]
  const CLAIM: Act := StopClaim(0, 0, ToUnregister)
  const SEND: Act := StopSend(0, true, ToUnregister)

  /** Process 0 is p, and these are all the activities. */
  predicate At(w: World, p: Proc, acts: map<Tid, Act>, nextTid: Tid) {
    w.procs == map[0 := p] && w.table == map[P := 0] && w.acts == acts && w.nextTid == nextTid && w.now == 0
  }

  /** A run so far, with the two counts for process 0. */
  ghost predicate Sofar(ws: seq<World>, ls: seq<Label>, w: World, leaves: nat, claims: nat) {
    && IsRun(ws, ls) && ws[|ls|] == w
    && LeavesOf(ws, ls, 0, |ls|) == leaves && ClaimsOf(ws, ls, 0, |ls|) == claims
  }

  predicate Longer(ws: seq<World>, ls: seq<Label>, ws': seq<World>, ls': seq<Label>) { ws <= ws' && ls <= ls' }

  lemma {:induction false} CountsExtend(ws: seq<World>, ls: seq<Label>, w: World, l: Label, k: nat)
    requires IsRun(ws, ls) && IsRun(ws + [w], ls + [l]) && k <= |ls|
    ensures LeavesOf(ws + [w], ls + [l], 0, k) == LeavesOf(ws, ls, 0, k)
    ensures ClaimsOf(ws + [w], ls + [l], 0, k) == ClaimsOf(ws, ls, 0, k)
  {
    hide Next, Enabled, ClaimsStop;
    if k > 0 { CountsExtend(ws, ls, w, l, k - 1); }
  }

  lemma Extend(ws: seq<World>, ls: seq<Label>, w: World, leaves: nat, claims: nat, l: Label)
    returns (ws': seq<World>, ls': seq<Label>)
    requires Sofar(ws, ls, w, leaves, claims) && Enabled(w, l)
    ensures Sofar(ws', ls', Next(w, l), leaves + if Leaves(w, l, 0) then 1 else 0, claims + if ClaimsStop(w, l, 0) then 1 else 0)
    ensures |ls'| == |ls| + 1 && Longer(ws, ls, ws', ls') && ls'[|ls|] == l
  {
    hide Next, Enabled, ClaimsStop;
    var w' := Next(w, l);
    ws', ls' := ws + [w'], ls + [l];
    assert IsRun(ws', ls') by {
      forall i | 0 <= i < |ls'| ensures Enabled(ws'[i], ls'[i]) && ws'[i + 1] == Next(ws'[i], ls'[i]) {
        assert i < |ls| ==> ws'[i] == ws[i] && ws'[i + 1] == ws[i + 1] && ls'[i] == ls[i];
      }
    }
    CountsExtend(ws, ls, w', l, |ls|);
  }

  // ----- the steps -----

  lemma CreateStep(w: World)
    requires w == START
    ensures var w1 := Next(w, CreateCall(0, P, "b", 0, 0));
            && w1 == w.(procs := map[0 := FRESH], acts := map[0 := CreateRegister(0)], nextTid := 1)
  {
  }

  lemma AdmitStep(w: World)
    requires w == START.(procs := map[0 := FRESH], acts := map[0 := CreateRegister(0)], nextTid := 1)
    ensures Enabled(w, Move(0, OK)) && At(Next(w, Move(0, OK)), LISTED, map[0 := CreateNotify(0)], 1)
  {
  }

  lemma LaunchStep(w: World)
    requires At(w, LISTED, map[0 := CreateStart(0)], 1)
    ensures At(Next(w, Move(0, OK)), STARTED, map[1 := RunLaunch(0), 2 := ReadyWait(0)], 3)
  {
  }

  /** A delete call arrives and finds the process. */
  lemma DeleteArrives(ws: seq<World>, ls: seq<Label>, w: World, leaves: nat, claims: nat, p: Proc, acts: map<Tid, Act>, n: Tid)
    returns (ws': seq<World>, ls': seq<Label>, w': World)
    requires Sofar(ws, ls, w, leaves, claims) && At(w, p, acts, n)
    ensures Sofar(ws', ls', w', leaves, claims) && At(w', p, acts[n := StopClaim(0, 0, ToUnregister)], n + 1)
    ensures |ls'| == |ls| + 2 && Longer(ws, ls, ws', ls') && ls'[|ls|] == DeleteCall(P, None)
  {
    hide Sofar;
    ws', ls' := Extend(ws, ls, w, leaves, claims, DeleteCall(P, None));
    w' := Next(w, DeleteCall(P, None));
    assert At(w', p, acts[n := DeleteFind(P, None)], n + 1);
    ws', ls' := Extend(ws', ls', w', leaves, claims, Move(n, OK));
    w' := Next(w', Move(n, OK));
    assert acts[n := DeleteFind(P, None)][n := StopClaim(0, 0, ToUnregister)] == acts[n := StopClaim(0, 0, ToUnregister)];
  }

  lemma LocalStep(w: World, t: Tid, c: Choice, p: Proc, acts: map<Tid, Act>, n: Tid, e: Effect)
    requires At(w, p, acts, n) && t in acts && !acts[t].Notify? && !acts[t].DeleteFind? && acts[t].u == 0 && !Touches(acts[t])
    requires p.name == P && e == Local(acts[t], p, t, See(w, acts[t], p, c)) && e.next.Some? && e.spawn.Zero?
    ensures Enabled(w, Move(t, c)) && At(Next(w, Move(t, c)), e.p, acts[t := e.next.value], n)
  {
    hide Local;
  }

  /** One step of one activity on the process, with what it adds to the counts. */
  lemma Go(ws: seq<World>, ls: seq<Label>, w: World, leaves: nat, claims: nat, t: Tid, c: Choice,
           p: Proc, acts: map<Tid, Act>, n: Tid, q: Proc, b: Act)
    returns (ws': seq<World>, ls': seq<Label>, w': World)
    requires Sofar(ws, ls, w, leaves, claims) && At(w, p, acts, n) && p.name == P
    requires t in acts && !acts[t].Notify? && !acts[t].DeleteFind? && acts[t].u == 0 && !Touches(acts[t])
    requires Local(acts[t], p, t, See(w, acts[t], p, c)) == Goto(q, b)
    ensures Sofar(ws', ls', w', leaves + if Terminal(p.state) && !Terminal(q.state) then 1 else 0,
                  claims + if acts[t].StopClaim? && Claim(p.state, p.deletedAt, Clock(w, acts[t], c)).Graceful? then 1 else 0)
    ensures At(w', q, acts[t := b], n) && |ls'| == |ls| + 1 && Longer(ws, ls, ws', ls')
  {
    hide Sofar, Local, Next;
    LocalStep(w, t, c, p, acts, n, Goto(q, b));
    ws', ls' := Extend(ws, ls, w, leaves, claims, Move(t, c));
    w' := Next(w, Move(t, c));
  }

  lemma Admission() returns (ws: seq<World>, ls: seq<Label>, w: World)
    ensures Sofar(ws, ls, w, 0, 0) && At(w, LISTED, map[0 := CreateNotify(0)], 1) && |ls| == 2
  {
    w := START;
    ws, ls := [w], [];
    assert Sofar(ws, ls, w, 0, 0);
    hide Sofar, At, Next, Enabled;
    assert Enabled(w, CreateCall(0, P, "b", 0, 0)) by { Nothing(w); }
    CreateStep(w);
    ws, ls := Extend(ws, ls, w, 0, 0, CreateCall(0, P, "b", 0, 0));
    w := Next(w, CreateCall(0, P, "b", 0, 0));
    AdmitStep(w);
    AtNow(Next(w, Move(0, OK)), LISTED, map[0 := CreateNotify(0)], 1);
    ws, ls := Extend(ws, ls, w, 0, 0, Move(0, OK));
    w := Next(w, Move(0, OK));
  }

  lemma Beginning() returns (ws: seq<World>, ls: seq<Label>, w: World)
    ensures Sofar(ws, ls, w, 0, 0) && At(w, STARTED, BEGUN, 3) && |ls| == 4
  {
    hide Sofar, At, Next, Enabled;
    ws, ls, w := Admission();
    ws, ls, w := Go(ws, ls, w, 0, 0, 0, OK, LISTED, map[0 := CreateNotify(0)], 1, LISTED, CreateStart(0));
    assert map[0 := CreateNotify(0)][0 := CreateStart(0)] == map[0 := CreateStart(0)];
    AtNow(w, LISTED, map[0 := CreateStart(0)], 1);
    Anything(w, 0);
    LaunchStep(w);
    AtNow(Next(w, Move(0, OK)), STARTED, BEGUN, 3);
    ws, ls := Extend(ws, ls, w, 0, 0, Move(0, OK));
    w := Next(w, Move(0, OK));
  }

  lemma Nothing(w: World)
    requires w == START
    ensures Enabled(w, CreateCall(0, P, "b", 0, 0))
  {
  }

  lemma Anything(w: World, t: Tid)
    requires t in w.acts && !w.acts[t].CreateRegister? && !w.acts[t].ReplaceInit?
    ensures Enabled(w, Move(t, OK))
  {
  }

  lemma AtNow(w: World, p: Proc, acts: map<Tid, Act>, n: Tid)
    requires At(w, p, acts, n)
    ensures w.procs == map[0 := p] && w.acts == acts && w.now == 0
  {
  }

  lemma FirstClaim() returns (ws: seq<World>, ls: seq<Label>, w: World)
    ensures Sofar(ws, ls, w, 0, 1) && At(w, CLAIMED, BEGUN[3 := SEND], 4)
  {
    hide Sofar, At;
    ws, ls, w := Beginning();
    ws, ls, w := DeleteArrives(ws, ls, w, 0, 0, STARTED, BEGUN, 3);
    AtNow(w, STARTED, BEGUN[3 := CLAIM], 4);
    ws, ls, w := Go(ws, ls, w, 0, 0, 3, OK, STARTED, BEGUN[3 := CLAIM], 4, CLAIMED, SEND);
    assert BEGUN[3 := CLAIM][3 := SEND] == BEGUN[3 := SEND];
  }

  /** The command fails to launch. */
  lemma Failure(ws: seq<World>, ls: seq<Label>, w: World, acts: map<Tid, Act>)
    returns (ws': seq<World>, ls': seq<Label>, w': World)
    requires Sofar(ws, ls, w, 0, 1) && At(w, CLAIMED, acts, 4) && 1 in acts && acts[1] == RunLaunch(0)
    ensures Sofar(ws', ls', w', 0, 1) && At(w', FAILED, acts[1 := Notify], 4)
  {
    hide Sofar, At;
    var exited := CLAIMED.(cmd := Exited);
    ws', ls', w' := Go(ws, ls, w, 0, 1, 1, Choice(false, 0), CLAIMED, acts, 4, exited, RunSet(0, true));
    ws', ls', w' := Go(ws', ls', w', 0, 1, 1, OK, exited, acts[1 := RunSet(0, true)], 4, FAILED, Notify);
    assert acts[1 := RunSet(0, true)][1 := Notify] == acts[1 := Notify];
  }

  /** The readiness goroutine nevertheless reports the process running. */
  lemma Revival(ws: seq<World>, ls: seq<Label>, w: World, acts: map<Tid, Act>)
    returns (ws': seq<World>, ls': seq<Label>, w': World)
    requires Sofar(ws, ls, w, 0, 1) && At(w, FAILED, acts, 4) && 2 in acts && acts[2] == ReadyWait(0)
    ensures Sofar(ws', ls', w', 1, 1) && At(w', REVIVED, acts[2 := Notify], 4)
  {
    hide Sofar, At;
    ws', ls', w' := Go(ws, ls, w, 0, 1, 2, OK, FAILED, acts, 4, FAILED, ReadySet(0));
    ws', ls', w' := Go(ws', ls', w', 0, 1, 2, OK, FAILED, acts[2 := ReadySet(0)], 4, REVIVED, Notify);
    assert acts[2 := ReadySet(0)][2 := Notify] == acts[2 := Notify];
  }

  lemma SecondClaim(ws: seq<World>, ls: seq<Label>, w: World, acts: map<Tid, Act>)
    returns (ws': seq<World>, ls': seq<Label>, w': World)
    requires Sofar(ws, ls, w, 1, 1) && At(w, REVIVED, acts, 4)
    ensures Sofar(ws', ls', w', 1, 2)
  {
    hide Sofar, At;
    ws', ls', w' := DeleteArrives(ws, ls, w, 1, 1, REVIVED, acts, 4);
    var q := REVIVED.(state := Stopping, deletedAt := Some(0), closer := Some(4), claimer := Some(4));
    AtNow(w', REVIVED, acts[4 := CLAIM], 5);
    ws', ls', w' := Go(ws', ls', w', 1, 1, 4, OK, REVIVED, acts[4 := CLAIM], 5, q, SEND);
  }

  /** Both bounds of LifecycleBound are reached, in one run: the process leaves {Stopped, Error}
      once, and its graceful stop is claimed twice. */
  lemma BoundsAttained() returns (ws: seq<World>, ls: seq<Label>)
    ensures IsRun(ws, ls) && LeavesOf(ws, ls, 0, |ls|) == 1 && ClaimsOf(ws, ls, 0, |ls|) == 2
  {
    hide Sofar, At, LeavesOf, ClaimsOf, IsRun;
    var w: World;
    ws, ls, w := FirstClaim();
    ws, ls, w := Failure(ws, ls, w, BEGUN[3 := SEND]);
    ws, ls, w := Revival(ws, ls, w, BEGUN[3 := SEND][1 := Notify]);
    ws, ls, w := SecondClaim(ws, ls, w, BEGUN[3 := SEND][1 := Notify][2 := Notify]);
    SofarIs(ws, ls, w, 1, 2);
  }

  // ----- a readiness goroutine defeats a delete -----

  const UP: Proc := STARTED.(cmd := Live)
  const DOWN: Proc := STARTED.(cmd := Exited)
  const ENDED: Proc := DOWN.(state := Stopped, ran := true)
  const CLOSED: Proc := ENDED.(closer := Some(3), closed := true)

  lemma Exits() returns (ws: seq<World>, ls: seq<Label>, w: World)
    ensures Sofar(ws, ls, w, 0, 0) && At(w, DOWN, BEGUN[1 := RunSet(0, false)], 3)
  {
    hide Sofar, At;
    ws, ls, w := Beginning();
    ws, ls, w := Go(ws, ls, w, 0, 0, 1, OK, STARTED, BEGUN, 3, UP, RunWait(0));
    ws, ls, w := Go(ws, ls, w, 0, 0, 1, OK, UP, BEGUN[1 := RunWait(0)], 3, DOWN, RunSet(0, false));
    assert BEGUN[1 := RunWait(0)][1 := RunSet(0, false)] == BEGUN[1 := RunSet(0, false)];
  }

  /** The command runs and exits; without ports there is nothing to probe, and the readiness
      goroutine is about to report the process running. */
  lemma Finished() returns (ws: seq<World>, ls: seq<Label>, w: World)
    ensures Sofar(ws, ls, w, 0, 0) && At(w, ENDED, WAITING, 3)
  {
    hide Sofar, At;
    ws, ls, w := Exits();
    var a: map<Tid, Act> := BEGUN[1 := RunSet(0, false)];
    ws, ls, w := Go(ws, ls, w, 0, 0, 1, OK, DOWN, a, 3, ENDED, Notify);
    ws, ls, w := Go(ws, ls, w, 0, 0, 2, OK, ENDED, a[1 := Notify], 3, ENDED, ReadySet(0));
    assert a[1 := Notify][2 := ReadySet(0)] == WAITING;
  }

  lemma UnregisterStep(w: World, acts: map<Tid, Act>)
    requires At(w, CLOSED, acts, 4) && 3 in acts && acts[3] == DeleteUnregister(0)
    ensures Enabled(w, Move(3, OK)) && At(Next(w, Move(3, OK)), CLOSED, (acts - {3})[4 := UnregPoll(0, 0)], 5)
    ensures !ClaimsStop(w, Move(3, OK), 0) && !Leaves(w, Move(3, OK), 0)
  {
  }

  lemma GiveUpStep(w: World, acts: map<Tid, Act>, p: Proc)
    requires At(w, p, acts, 5) && p.name == P && !Terminal(p.state) && 4 in acts && acts[4] == UnregRecheck(0)
    ensures Enabled(w, Move(4, OK)) && At(Next(w, Move(4, OK)), p, acts - {4}, 5)
    ensures !ClaimsStop(w, Move(4, OK), 0) && !Leaves(w, Move(4, OK), 0)
  {
  }

  const WAITING: map<Tid, Act> := map[1 := Notify, 2 := ReadySet(0)]

  lemma Closing(ws: seq<World>, ls: seq<Label>, w: World) returns (ws': seq<World>, ls': seq<Label>, w': World)
    requires Sofar(ws, ls, w, 0, 0) && At(w, ENDED, WAITING, 3)
    ensures Sofar(ws', ls', w', 0, 0) && Longer(ws, ls, ws', ls') && |ls'| > |ls| && ls'[|ls|] == DeleteCall(P, None)
    ensures At(w', CLOSED, WAITING[3 := DeleteUnregister(0)], 4)
  {
    hide Sofar, At;
    var q, stop := ENDED.(closer := Some(3)), StopClose(0, ToUnregister);
    ws', ls', w' := DeleteArrives(ws, ls, w, 0, 0, ENDED, WAITING, 3);
    ws', ls', w' := Go(ws', ls', w', 0, 0, 3, OK, ENDED, WAITING[3 := CLAIM], 4, q, stop);
    assert WAITING[3 := CLAIM][3 := stop] == WAITING[3 := stop];
    ws', ls', w' := Go(ws', ls', w', 0, 0, 3, OK, q, WAITING[3 := stop], 4, CLOSED, DeleteUnregister(0));
    assert WAITING[3 := stop][3 := DeleteUnregister(0)] == WAITING[3 := DeleteUnregister(0)];
  }

  /** The delete closes the log and its unregister goroutine sees the process stopped. */
  lemma Deleting(ws: seq<World>, ls: seq<Label>, w: World) returns (ws': seq<World>, ls': seq<Label>, w': World)
    requires Sofar(ws, ls, w, 0, 0) && At(w, ENDED, WAITING, 3)
    ensures Sofar(ws', ls', w', 0, 0) && Longer(ws, ls, ws', ls') && |ls'| > |ls| && ls'[|ls|] == DeleteCall(P, None)
    ensures At(w', CLOSED, WAITING[4 := UnregRecheck(0)], 5)
  {
    hide Sofar, At, Next, Enabled, Leaves, ClaimsStop;
    ws', ls', w' := Closing(ws, ls, w);
    UnregisterStep(w', WAITING[3 := DeleteUnregister(0)]);
    ws', ls' := Extend(ws', ls', w', 0, 0, Move(3, OK));
    w' := Next(w', Move(3, OK));
    var poll := WAITING[4 := UnregPoll(0, 0)];
    assert (WAITING[3 := DeleteUnregister(0)] - {3})[4 := UnregPoll(0, 0)] == poll;
    ws', ls', w' := Go(ws', ls', w', 0, 0, 4, OK, CLOSED, poll, 5, CLOSED, UnregRecheck(0));
    assert poll[4 := UnregRecheck(0)] == WAITING[4 := UnregRecheck(0)];
  }

  /** Why DeleteCompletes asks for the readiness goroutine's verdict: with everything else done and
      no stop to settle, its write of Running comes between the unregister goroutine's poll and
      its verdict. The delete ends, and the process stays in the table with its ports. */
  lemma DeleteDefeated() returns (ws: seq<World>, ls: seq<Label>, i: nat)
    ensures IsRun(ws, ls) && i < |ls| && ls[i] == DeleteCall(P, None)
    ensures Listed(ws[i], 0) && ws[i].procs[0].state.Stopped? && ws[i].procs[0].cmd.Exited?
    ensures forall t :: t in ws[i].acts && Pending(ws[i].acts[t], 0) ==> ws[i].acts[t] == ReadySet(0)
    ensures var end := ws[|ls|];
            && Listed(end, 0) && end.procs[0].stage.Registered? && end.procs[0].state.Running? && ClaimsOf(ws, ls, 0, |ls|) == 0
            && forall t :: t in end.acts ==> end.acts[t] == Notify
  {
    hide Sofar, At, Next, Enabled, Leaves, ClaimsStop;
    var w: World;
    ws, ls, w := Finished();
    i := |ls|;
    var pre := ws;
    SofarIs(ws, ls, w, 0, 0);
    BeforeDelete(w);
    ws, ls, w := Deleting(ws, ls, w);
    assert ws[i] == pre[i];
    var acts := WAITING[4 := UnregRecheck(0)];
    var up := CLOSED.(state := Running, readied := true);
    ws, ls, w := Go(ws, ls, w, 0, 0, 2, OK, CLOSED, acts, 5, up, Notify);
    GiveUpStep(w, acts[2 := Notify], up);
    ws, ls := Extend(ws, ls, w, 1, 0, Move(4, OK));
    w := Next(w, Move(4, OK));
    assert acts[2 := Notify] - {4} == map[1 := Notify, 2 := Notify];
    AfterDelete(w, up);
    SofarIs(ws, ls, w, 1, 0);
  }

  lemma BeforeDelete(w: World)
    requires At(w, ENDED, WAITING, 3)
    ensures Listed(w, 0) && w.procs[0].state.Stopped? && w.procs[0].cmd.Exited?
    ensures forall t :: t in w.acts && Pending(w.acts[t], 0) ==> w.acts[t] == ReadySet(0)
  {
  }

  lemma AfterDelete(w: World, p: Proc)
    requires At(w, p, map[1 := Notify, 2 := Notify], 5) && p.name == P
    ensures Listed(w, 0) && w.procs[0] == p && forall t :: t in w.acts ==> w.acts[t] == Notify
  {
  }

  lemma SofarIs(ws: seq<World>, ls: seq<Label>, w: World, leaves: nat, claims: nat)
    requires Sofar(ws, ls, w, leaves, claims)
    ensures IsRun(ws, ls) && ws[|ls|] == w && LeavesOf(ws, ls, 0, |ls|) == leaves && ClaimsOf(ws, ls, 0, |ls|) == claims
  {
  }
}
