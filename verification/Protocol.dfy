/** The process manager as a state machine.

    One step is one critical section, one channel send, or one unsynchronised access of
    pkg/process/process_manager.go and pkg/process/process.go. Every API call and every
    goroutine is an activity with its own program counter, and activities interleave
    freely. Allocation results, command outcomes and probe results are chosen by the label. */
module Protocol {
  import opened Wrappers
  import opened PortLedger

  type Name = string
  type Uuid = nat
  type Tid = nat

  const WAIT_COUNT := 600          // types.WaitCount
  const REPLACE_POLLS := 30
  const DELETE_TIMEOUT := 60_000   // WaitInterval * WaitCount, in milliseconds

  datatype PState = Starting | Running | Stopping | Stopped | Error

  predicate Terminal(s: PState) { s.Stopped? || s.Error? }

  /** What cmd.IsRunning() can observe: running means launched and not yet reaped. */
  datatype Cmd = NoCmd | NotLaunched | Live | Exited

  /** History of a Process object: log writer opened, replacement holding ports but not
      registered, present in the process table, and out of the manager's hands. */
  datatype Stage = Opened | InFlight | Registered | Gone

  /** The fields of Process, followed by history fields that no step reads. */
  datatype Proc = Proc(
    name: Name, binary: string, count: int, portArgs: nat,
    first: int, last: int, state: PState, deletedAt: Option<int>, cmd: Cmd, closed: bool,
    // history
    stage: Stage, creator: Tid, started: bool,
    runner: Option<Tid>, ran: bool, reader: Option<Tid>, readied: bool,
    closer: Option<Tid>, claimer: Option<Tid>)

  /** What a Stop call does when it returns. */
  datatype After = ToUnregister | ToCommit(next: Uuid) | ToRelease | Return

  datatype Act =
    // ProcessCreate
    | CreateRegister(u: Uuid) | CreateNotify(u: Uuid) | CreateStart(u: Uuid)
    | CloseLog(u: Uuid)
    // ProcessDelete and the unregister goroutine
    | DeleteFind(name: Name, want: Option<Uuid>) | DeleteUnregister(u: Uuid)
    | UnregPoll(u: Uuid, i: nat) | UnregRecheck(u: Uuid) | UnregRemove(u: Uuid)
    // ProcessReplace
    | ReplaceInit(u: Uuid) | ReplaceCompare(u: Uuid, o: Uuid)
    | ReplaceDropLog(u: Uuid) | ReplaceDropPorts(u: Uuid)
    | ReplaceStart(u: Uuid, o: Uuid) | ReplacePoll(u: Uuid, o: Uuid, i: nat)
    | ReplaceCommit(u: Uuid, o: Uuid) | ReplaceRelease(u: Uuid)
    // StopWithSignal, inside a call or inside the readiness goroutine, entered at time since
    | StopClaim(u: Uuid, since: int, after: After) | StopClose(u: Uuid, after: After)
    | StopSend(u: Uuid, graceful: bool, after: After) | StopLoad(u: Uuid, graceful: bool, after: After)
    // the stop goroutine
    | StopperCheck(u: Uuid, graceful: bool, hasCmd: bool) | StopperLook(u: Uuid, again: bool)
    | StopperWrite(u: Uuid) | StopperPoll(u: Uuid, i: nat) | StopperKill(u: Uuid) | StopperClose(u: Uuid)
    // the run goroutine
    | RunLaunch(u: Uuid) | RunWait(u: Uuid) | RunSet(u: Uuid, failed: bool)
    // the readiness goroutine
    | ReadyWait(u: Uuid) | ReadySet(u: Uuid) | ReadyCheck(u: Uuid)
    // a last send on UpdateCh before the activity ends
    | Notify

  datatype World = World(
    lo: int, hi: int,
    table: map<Name, Uuid>,        // pm.processes
    free: set<int>,                // pm.availablePorts
    procs: map<Uuid, Proc>,        // every Process object ever built
    acts: map<Tid, Act>,           // calls and goroutines in progress
    nextTid: Tid, now: int,
    owner: map<int, Uuid>)         // history: which process holds a port

  /** The resolution of whatever the environment decides in a step; at is where the bitmap
      finds a range, or when a stop reads the clock. */
  datatype Choice = Choice(ok: bool, at: int)

  datatype Label =
    | CreateCall(u: Uuid, name: Name, binary: string, count: int, portArgs: nat)
    | DeleteCall(dname: Name, want: Option<Uuid>)
    | ReplaceCall(u: Uuid, name: Name, binary: string, count: int, portArgs: nat)
    | Tick(ms: nat)
    | Move(t: Tid, c: Choice)

  predicate IsInit(w: World) {
    && 0 < w.lo <= w.hi
    && w.table == map[] && w.procs == map[] && w.acts == map[] && w.owner == map[]
    && w.free == Range(w.lo, w.hi)
  }

  // ----- small updates of the world -----

  function To(w: World, t: Tid, a: Act): World { w.(acts := w.acts[t := a]) }

  function End(w: World, t: Tid): World { w.(acts := w.acts - {t}) }

  function Put(w: World, u: Uuid, p: Proc): World { w.(procs := w.procs[u := p]) }

  function Fork(w: World, a: Act): World {
    w.(acts := w.acts[w.nextTid := a], nextTid := w.nextTid + 1)
  }

  function PortsOf(p: Proc): set<int> { PortSet(p.first, p.last) }

  /** allocateProcessPorts, with the bitmap's answer in c. */
  predicate CanAllocate(w: World, p: Proc, c: Choice) {
    && p.portArgs <= p.count
    && (p.count > 0 ==> Allocatable(w.free, c.at, p.count))
  }

  function Allocated(p: Proc, c: Choice): Proc {
    if p.count <= 0 then p.(first := 0, last := 0)
    else p.(first := c.at, last := c.at + p.count - 1)
  }

  function Allocate(w: World, u: Uuid, p: Proc): World {
    Put(w, u, p).(free := w.free - PortsOf(p),
                  owner := w.owner + map x | x in PortsOf(p) :: u)
  }

  /** releaseProcessPorts: the bitmap gets the range back whoever asks. */
  function Release(w: World, p: Proc): World {
    w.(free := Released(w.free, w.lo, w.hi, p.first, p.last),
       owner := w.owner - PortsOf(p))
  }

  function NewProc(l: Label, t: Tid): Proc
    requires l.CreateCall? || l.ReplaceCall?
  {
    Proc(l.name, l.binary, l.count, l.portArgs, 0, 0, Starting, None, NoCmd, false,
         Opened, t, false, None, false, None, false, None, None)
  }

  predicate Holds(table: map<Name, Uuid>, n: Name, u: Uuid) { n in table && table[n] == u }

  // ----- the steps -----

  predicate Enabled(w: World, l: Label) {
    match l
    case CreateCall(u, name, binary, _, _) => u !in w.procs && name != "" && binary != ""
    case ReplaceCall(u, name, binary, _, _) => u !in w.procs && name != "" && binary != ""
    case DeleteCall(_, _) => true
    case Tick(_) => true
    case Move(t, c) =>
      && t in w.acts
      && (match w.acts[t]
          case CreateRegister(u) => c.ok ==> u in w.procs && CanAllocate(w, w.procs[u], c)
          case ReplaceInit(u) => c.ok ==> u in w.procs && CanAllocate(w, w.procs[u], c)
          case _ => true)
  }

  function Next(w: World, l: Label): World
    requires Enabled(w, l)
  {
    match l
    case CreateCall(u, _, _, _, _) => Fork(Put(w, u, NewProc(l, w.nextTid)), CreateRegister(u))
    case ReplaceCall(u, _, _, _, _) => Fork(Put(w, u, NewProc(l, w.nextTid)), ReplaceInit(u))
    case DeleteCall(name, want) => Fork(w, DeleteFind(name, want))
    case Tick(ms) => w.(now := w.now + ms)
    case Move(t, c) =>
      match w.acts[t]
      case DeleteFind(name, want) => FindStep(w, t, name, want)
      case Notify => End(w, t)
      case a => if a.u in w.procs then ProcStep(w, t, a, w.procs[a.u], c) else w
  }

  /** findProcess and the UUID test of ProcessDelete. */
  function FindStep(w: World, t: Tid, name: Name, want: Option<Uuid>): World {
    if name !in w.table || (want.Some? && want.value != w.table[name]) then End(w, t)
    else To(w, t, StopClaim(w.table[name], w.now, ToUnregister))
  }

  function ProcStep(w: World, t: Tid, a: Act, p: Proc, c: Choice): World
    requires !a.Notify? && !a.DeleteFind?
  {
    match a
    case CreateRegister(u) => RegisterStep(w, t, u, p, c)
    case ReplaceInit(u) => ReplaceInitStep(w, t, u, p, c)
    case UnregRemove(u) => RemoveStep(w, t, u, p)
    case ReplaceCommit(u, o) => CommitStep(w, t, u, o, p)
    case ReplaceDropPorts(u) => End(Drop(w, u), t)
    case ReplaceRelease(u) => End(Drop(w, u), t)
    case _ =>
      Advance(w, t, a.u, Local(a, p, t, See(w, a, p, c)))
  }

  // ----- steps that touch the process table or the bitmap -----

  /** registerProcess. */
  function RegisterStep(w: World, t: Tid, u: Uuid, p: Proc, c: Choice): World {
    if p.name in w.table || !c.ok then Refuse(w, t, u, p)
    else To(Allocate(w, u, Allocated(p, c).(stage := Registered)).(table := w.table[p.name := u]), t, CreateNotify(u))
  }

  /** initProcessReplace. */
  function ReplaceInitStep(w: World, t: Tid, u: Uuid, p: Proc, c: Choice): World {
    if p.name !in w.table || !c.ok then Refuse(w, t, u, p)
    else To(Allocate(w, u, Allocated(p, c).(stage := InFlight)), t, ReplaceCompare(u, w.table[p.name]))
  }

  /** The call fails: what is left to do is closing the log writer it opened. */
  function Refuse(w: World, t: Tid, u: Uuid, p: Proc): World {
    To(Put(w, u, p.(stage := Gone, closer := Some(t))), t, CloseLog(u))
  }

  /** The process leaves the manager and its ports go back to the bitmap. */
  function Drop(w: World, u: Uuid): World {
    if u in w.procs then Put(Release(w, w.procs[u]), u, w.procs[u].(stage := Gone)) else w
  }

  /** The second critical section of the unregister goroutine. */
  function RemoveStep(w: World, t: Tid, u: Uuid, p: Proc): World {
    if Holds(w.table, p.name, u) then To(Drop(w, u).(table := w.table - {p.name}), t, Notify)
    else To(w, t, Notify)
  }

  /** The final critical section of ProcessReplace. */
  function CommitStep(w: World, t: Tid, u: Uuid, o: Uuid, p: Proc): World {
    if p.name !in w.table then Enlist(w, t, u, p)
    else if w.table[p.name] == o then Enlist(Drop(w, o), t, u, p)
    else To(w, t, StopClaim(u, w.now, ToRelease))
  }

  function Enlist(w: World, t: Tid, u: Uuid, p: Proc): World {
    To(Put(w, u, p.(stage := Registered)).(table := w.table[p.name := u]), t, Notify)
  }

  // ----- steps of an activity on one process -----

  /** StopWithSignal reads the clock before it takes the lock: at any time since it was entered. */
  function Clock(w: World, a: Act, c: Choice): int {
    if a.StopClaim? && a.since <= c.at <= w.now then c.at else w.now
  }

  /** What a step reads besides its process: fresh goroutine ids, the clock, whether the
      table holds the process, whether the process to replace has the same binary, and
      the environment's answer. */
  datatype Seen = Seen(nextId: Tid, now: int, listed: bool, sameBinary: bool, ok: bool)

  function See(w: World, a: Act, p: Proc, c: Choice): Seen
    requires !a.Notify? && !a.DeleteFind?
  {
    Seen(w.nextTid, Clock(w, a, c), Holds(w.table, p.name, a.u),
         a.ReplaceCompare? && a.o in w.procs && w.procs[a.o].binary == p.binary, c.ok)
  }

  /** The process afterwards, where the activity goes, and the goroutines it starts. */
  datatype Effect = Effect(p: Proc, next: Option<Act>, spawn: Spawn)

  datatype Spawn = Zero | One(a: Act) | Two(a: Act, b: Act)

  function Advance(w: World, t: Tid, u: Uuid, e: Effect): (r: World)
    ensures r.table == w.table && r.free == w.free && r.owner == w.owner && r.lo == w.lo && r.hi == w.hi
    ensures r.procs == w.procs[u := e.p] && r.now == w.now
  {
    var w1 := Put(w, u, e.p);
    var w2 := if e.next.Some? then To(w1, t, e.next.value) else End(w1, t);
    match e.spawn
    case Zero => w2
    case One(a) => Fork(w2, a)
    case Two(a, b) => Fork(Fork(w2, a), b)
  }

  function Goto(p: Proc, a: Act): Effect { Effect(p, Some(a), Zero) }

  function Local(a: Act, p: Proc, t: Tid, s: Seen): Effect {
    match a
    case CreateNotify(u) => Goto(p, CreateStart(u))
    case CreateStart(u) => Start(p, u, s, None, Notify)
    case CloseLog(u) => Effect(p.(closed := true), None, Zero)
    case DeleteUnregister(u) => Effect(p, None, if s.listed then One(UnregPoll(u, 0)) else Zero)
    case UnregPoll(u, i) =>
      Goto(p, if Terminal(p.state) || i >= WAIT_COUNT then UnregRecheck(u) else UnregPoll(u, i + 1))
    case UnregRecheck(u) => Effect(p, if Terminal(p.state) then Some(UnregRemove(u)) else None, Zero)
    case ReplaceCompare(u, o) => Goto(p, if s.sameBinary then ReplaceDropLog(u) else ReplaceStart(u, o))
    case ReplaceDropLog(u) => Goto(p.(closed := true), ReplaceDropPorts(u))
    case ReplaceStart(u, o) => Start(p, u, s, Some(ReplacePoll(u, o, 0)), StopClaim(u, s.now, ToRelease))
    case ReplacePoll(u, o, i) =>
      Goto(p, if p.state.Running? || i >= REPLACE_POLLS then StopClaim(o, s.now, ToCommit(u))
              else if !p.state.Starting? then StopClaim(u, s.now, ToRelease)
              else ReplacePoll(u, o, i + 1))
    case StopClaim(u, _, after) => StopStep(p, u, t, s.now, after)
    case StopClose(u, after) => Effect(p.(closed := true), Resume(u, after), Zero)
    case StopSend(u, graceful, after) => Goto(p, StopLoad(u, graceful, after))
    case StopLoad(u, graceful, after) =>
      Effect(p.(closer := Some(s.nextId), claimer := if p.claimer == Some(t) then Some(s.nextId) else p.claimer),
             Resume(u, after), One(StopperCheck(u, graceful, !p.cmd.NoCmd?)))
    case StopperCheck(u, graceful, hasCmd) =>
      Goto(p, if !hasCmd || !p.cmd.Live? then StopperLook(u, false)
              else if graceful then StopperPoll(u, 0) else StopperKill(u))
    case StopperLook(u, again) =>
      Goto(p, if (if again then p.state.Error? else p.state.Stopped?) then StopperClose(u)
              else if again then StopperWrite(u) else StopperLook(u, true))
    case StopperWrite(u) => Goto(p.(state := Stopped), StopperClose(u))
    case StopperPoll(u, i) =>
      Goto(p, if Terminal(p.state) then StopperClose(u)
              else if i >= WAIT_COUNT then StopperKill(u) else StopperPoll(u, i + 1))
    case StopperKill(u) => Goto(p, StopperClose(u))
    case StopperClose(u) => Effect(p.(closed := true), None, Zero)
    case RunLaunch(u) =>
      if s.ok then Goto(p.(cmd := Live), RunWait(u)) else Goto(p.(cmd := Exited), RunSet(u, true))
    case RunWait(u) => Goto(p.(cmd := Exited), RunSet(u, !s.ok))
    case RunSet(u, failed) => Goto(p.(state := if failed then Error else Stopped, ran := true), Notify)
    case ReadyWait(u) =>
      if p.first == 0 || s.ok then Goto(p, ReadySet(u)) else Goto(p.(readied := true), ReadyCheck(u))
    case ReadySet(u) => Goto(p.(state := Running, readied := true), Notify)
    case ReadyCheck(u) => Effect(p, if Terminal(p.state) then None else Some(StopClaim(u, s.now, Return)), Zero)
    case _ => Effect(p, None, Zero)
  }

  /** Process.Start: on success the run and the readiness goroutine begin. */
  function Start(p: Proc, u: Uuid, s: Seen, onOk: Option<Act>, onFail: Act): Effect {
    if !s.ok then Goto(p.(state := Error, started := true), onFail)
    else
      Effect(p.(cmd := NotLaunched, started := true, runner := Some(s.nextId), reader := Some(s.nextId + 1)),
             onOk, Two(RunLaunch(u), ReadyWait(u)))
  }

  datatype ClaimResult = Graceful | TimeoutKill | CloseOnly | Nothing

  /** needStop, needTimeoutKill and needCloseLogger of StopWithSignal. */
  function Claim(state: PState, deletedAt: Option<int>, now: int): ClaimResult {
    if !state.Stopping? && !Terminal(state) then Graceful
    else if deletedAt.Some? && deletedAt.value + DELETE_TIMEOUT < now then TimeoutKill
    else if deletedAt.None? && Terminal(state) then CloseOnly
    else Nothing
  }

  /** The critical section of StopWithSignal. */
  function StopStep(p: Proc, u: Uuid, t: Tid, now: int, after: After): Effect {
    match Claim(p.state, p.deletedAt, now)
    case Graceful =>
      Goto(p.(state := Stopping, deletedAt := Some(now), closer := Some(t), claimer := Some(t)),
           StopSend(u, true, after))
    case TimeoutKill => Goto(p.(closer := Some(t)), StopSend(u, false, after))
    case CloseOnly => Goto(p.(closer := Some(t)), StopClose(u, after))
    case Nothing => Effect(p, Resume(u, after), Zero)
  }

  function Resume(u: Uuid, after: After): Option<Act> {
    match after
    case ToUnregister => Some(DeleteUnregister(u))
    case ToCommit(n) => Some(ReplaceCommit(n, u))
    case ToRelease => Some(ReplaceRelease(u))
    case Return => None
  }
}
