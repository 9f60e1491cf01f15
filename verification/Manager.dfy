/** The process manager's objects and their critical sections, each proved to do what the
    corresponding step of the state machine does. */
module Manager {
  import opened Wrappers
  import opened PortLedger
  import opened Text
  import opened Names
  import opened Protocol
  import Bitmap

  class Process {
    const name: Name
    const uuid: Uuid
    const binary: string
    const portCount: int
    const portArgs: seq<string>
    var args: seq<string>
    var portStart: int
    var portEnd: int
    var state: PState
    var deletedAt: Option<int>

    constructor (name: Name, uuid: Uuid, binary: string, args: seq<string>, portCount: int, portArgs: seq<string>)
      ensures this.name == name && this.uuid == uuid && this.binary == binary
      ensures this.portCount == portCount && this.portArgs == portArgs && this.args == args
      ensures state == Starting && deletedAt == None && portStart == 0 && portEnd == 0
    {
      this.name, this.uuid, this.binary := name, uuid, binary;
      this.args, this.portCount, this.portArgs := args, portCount, portArgs;
      portStart, portEnd, state, deletedAt := 0, 0, Starting, None;
    }

    /** The object is in the state that p describes. */
    ghost predicate Mirrors(p: Proc)
      reads this
    {
      && p.name == name && p.binary == binary && p.count == portCount && p.portArgs == |portArgs|
      && p.first == portStart && p.last == portEnd && p.state == state && p.deletedAt == deletedAt
    }

    /** The critical section of StopWithSignal. */
    method ClaimStop(now: int, ghost p: Proc, ghost t: Tid, ghost after: After)
      returns (needStop: bool, needTimeoutKill: bool, needCloseLogger: bool)
      requires Mirrors(p)
      modifies this`state, this`deletedAt
      ensures needStop <==> old(state) == Starting || old(state) == Running
      ensures needTimeoutKill <==> !needStop && old(deletedAt).Some? && old(deletedAt).value + 60_000 < now
      ensures needCloseLogger <==> (old(state) == Stopped || old(state) == Error) && old(deletedAt).None?
      ensures if needStop then state == Stopping && deletedAt == Some(now) else state == old(state) && deletedAt == old(deletedAt)
      ensures Mirrors(StopStep(p, uuid, t, now, after).p)
      ensures match Claim(p.state, p.deletedAt, now)
              case Graceful => needStop && !needTimeoutKill && !needCloseLogger
              case TimeoutKill => !needStop && needTimeoutKill && !needCloseLogger
              case CloseOnly => !needStop && !needTimeoutKill && needCloseLogger
              case Nothing => !needStop && !needTimeoutKill && !needCloseLogger
    {
      hide Resume;
      needStop, needTimeoutKill, needCloseLogger := false, false, false;
      if state != Stopping && state != Stopped && state != Error {
        state := Stopping;
        deletedAt := Some(now);
        needStop := true;
      }
      if deletedAt.Some? && !needStop {
        if deletedAt.value + DELETE_TIMEOUT < now { needTimeoutKill := true; }
      }
      if !needStop && !needTimeoutKill && deletedAt.None? && (state == Stopped || state == Error) {
        needCloseLogger := true;
      }
    }

    /** IsStopped, which decides whether the unregister goroutine goes on to remove the process. */
    method IsStopped(ghost p: Proc, ghost t: Tid, ghost s: Seen) returns (r: bool)
      requires Mirrors(p)
      ensures Local(UnregRecheck(uuid), p, t, s).next == if r then Some(UnregRemove(uuid)) else None
    {
      r := state == Stopped || state == Error;
    }

    /** The critical section with which the run goroutine ends. */
    method Finish(failed: bool, ghost p: Proc, ghost t: Tid, ghost s: Seen)
      requires Mirrors(p)
      modifies this`state
      ensures state == if failed then Error else Stopped
      ensures Mirrors(Local(RunSet(uuid, failed), p, t, s).p)
    {
      state := if failed then Error else Stopped;
    }

    /** The readiness goroutine's write, which looks at nothing. */
    method BecomeRunning(ghost p: Proc, ghost t: Tid, ghost s: Seen)
      requires Mirrors(p)
      modifies this`state
      ensures state == Running
      ensures Mirrors(Local(ReadySet(uuid), p, t, s).p)
    {
      state := Running;
    }
  }

  /** A refused call leaves the table and the bitmap alone. */
  lemma Refusal(w: World, t: Tid, u: Uuid, p: Proc)
    ensures var c := Choice(false, 0); var w' := RegisterStep(w, t, u, p, c);
            w'.table == w.table && w'.free == w.free && w'.lo == w.lo && w'.hi == w.hi
  {
  }

  /** What the steps on table and bitmap come to for an object that only sees those. */
  lemma Admission(w: World, t: Tid, u: Uuid, p: Proc, c: Choice)
    requires p.name !in w.table && c.ok
    ensures var w', q := RegisterStep(w, t, u, p, c), Allocated(p, c).(stage := Registered);
            && w'.table == w.table[p.name := u] && w'.free == w.free - PortsOf(q)
            && w'.lo == w.lo && w'.hi == w.hi && u in w'.procs && w'.procs[u] == q
  {
    hide PortsOf;
  }

  lemma Commitment(w: World, t: Tid, u: Uuid, o: Uuid, p: Proc)
    requires o in w.procs
    ensures var w' := CommitStep(w, t, u, o, p);
            && w'.table == (if p.name !in w.table || w.table[p.name] == o then w.table[p.name := u] else w.table)
            && w'.free == (if Holds(w.table, p.name, o)
                           then Released(w.free, w.lo, w.hi, w.procs[o].first, w.procs[o].last) else w.free)
            && w'.lo == w.lo && w'.hi == w.hi
  {
    hide Released;
  }

  class Manager {
    const portRangeMin: int
    const portRangeMax: int
    const availablePorts: Bitmap.Bitmap
    var processes: map<Name, Process>

    constructor (first: int, last: int)
      requires 0 < first <= last
      ensures Valid() && fresh(availablePorts)
      ensures portRangeMin == first && portRangeMax == last
      ensures Table() == map[] && availablePorts.Free() == Range(first, last)
    {
      portRangeMin, portRangeMax, processes := first, last, map[];
      availablePorts := new Bitmap.Bitmap(first, last);
    }

    ghost predicate Valid()
      reads this, availablePorts
    {
      && availablePorts.Valid() && 0 < portRangeMin
      && availablePorts.base == portRangeMin && availablePorts.size == portRangeMax - portRangeMin + 1
      && forall n :: n in processes ==> processes[n].name == n
    }

    ghost function Table(): map<Name, Uuid>
      reads this
    {
      map n | n in processes :: processes[n].uuid
    }

    /** Table and bitmap are those of w. */
    ghost predicate Mirrors(w: World)
      reads this, availablePorts
    {
      && Valid() && w.lo == portRangeMin && w.hi == portRangeMax
      && w.table == Table() && w.free == availablePorts.Free()
    }

    /** The process's port arguments fit its count, and the bitmap finds that many ports. */
    ghost predicate Fits(p: Process)
      requires Valid()
      reads this, availablePorts
    {
      |p.portArgs| <= p.portCount && (p.portCount > 0 ==> !availablePorts.Refuses(p.portCount))
    }

    method AllocatePorts(count: int) returns (r: Option<(int, int)>)
      requires Valid()
      modifies availablePorts
      ensures Valid()
      ensures r.None? <==> count < 0 || (count > 0 && old(availablePorts.Refuses(count)))
      ensures r.None? ==> availablePorts.Free() == old(availablePorts.Free())
      ensures r.Some? && count == 0 ==> r.value == (0, 0) && availablePorts.Free() == old(availablePorts.Free())
      ensures r.Some? && count > 0 ==>
                && r.value.1 == r.value.0 + count - 1
                && Range(r.value.0, r.value.1) <= old(availablePorts.Free())
                && availablePorts.Free() == old(availablePorts.Free()) - Range(r.value.0, r.value.1)
    {
      if count < 0 { return None; }
      if count == 0 { return Some((0, 0)); }
      r := availablePorts.AllocateRange(count);
    }

    method ReleasePorts(first: int, last: int)
      requires Valid()
      modifies availablePorts
      ensures Valid()
      ensures availablePorts.Free() == Released(old(availablePorts.Free()), portRangeMin, portRangeMax, first, last)
    {
      if first < 0 || last < 0 { return; }
      var ok := availablePorts.ReleaseRange(first, last);
    }

    /** allocateProcessPorts: a failure changes nothing. */
    method AllocateProcessPorts(p: Process) returns (ok: bool)
      requires Valid()
      modifies availablePorts, p`portStart, p`portEnd, p`args
      ensures Valid()
      ensures !ok ==> availablePorts.Free() == old(availablePorts.Free()) && p.args == old(p.args)
      ensures ok <==> old(Fits(p))
      ensures ok ==> |p.portArgs| <= p.portCount
      ensures ok && p.portCount == 0 ==> p.portStart == 0 && p.portEnd == 0
      ensures ok && p.portCount > 0 ==>
                && p.portEnd == p.portStart + p.portCount - 1 && 0 < p.portStart
                && Range(p.portStart, p.portEnd) <= old(availablePorts.Free())
      ensures ok ==> availablePorts.Free() == old(availablePorts.Free()) - PortSet(p.portStart, p.portEnd)
      ensures ok ==> 0 <= p.portStart && p.args == old(p.args) + PortArguments(p.portArgs, p.portStart)
      ensures p.portArgs == [] ==> p.args == old(p.args)
    {
      if |p.portArgs| > p.portCount { return false; }
      availablePorts.FreeMembers();
      var r := AllocatePorts(p.portCount);
      if r.None? { return false; }
      p.portStart, p.portEnd := r.value.0, r.value.1;
      if p.portCount > 0 {
        assert p.portStart in Range(p.portStart, p.portEnd);
      }
      ok := AppendPortArgs(p);
    }

    /** The loop of allocateProcessPorts. Its error exit would lose the ports just allocated;
        with no more arguments than ports it is never taken. */
    method AppendPortArgs(p: Process) returns (ok: bool)
      requires 0 <= p.portStart && |p.portArgs| <= p.portCount
      requires p.portCount > 0 ==> p.portEnd == p.portStart + p.portCount - 1
      modifies p`args
      ensures ok && p.args == old(p.args) + PortArguments(p.portArgs, p.portStart)
    {
      hide Piece;
      var i := 0;
      while i < |p.portArgs|
        invariant 0 <= i <= |p.portArgs|
        invariant p.args == old(p.args) + PortArguments(p.portArgs[..i], p.portStart)
      {
        if p.portStart + i > p.portEnd { return false; }
        ArgumentsExtend(p.portArgs, p.portStart, i);
        p.args := p.args + Split(p.portArgs[i] + Show(p.portStart + i, 10), ',');
        i := i + 1;
      }
      assert p.portArgs[..i] == p.portArgs;
      return true;
    }

    method ReleaseProcessPorts(p: Process)
      requires Valid()
      modifies availablePorts
      ensures Valid()
      ensures availablePorts.Free() == Released(old(availablePorts.Free()), portRangeMin, portRangeMax, p.portStart, p.portEnd)
    {
      ReleasePorts(p.portStart, p.portEnd);
    }

    /** registerProcess. */
    method RegisterProcess(p: Process, ghost w: World, ghost t: Tid) returns (ok: bool, ghost c: Choice)
      requires Mirrors(w) && p.uuid in w.procs && p.Mirrors(w.procs[p.uuid])
      modifies this`processes, availablePorts, p`portStart, p`portEnd, p`args
      ensures c.ok ==> CanAllocate(w, w.procs[p.uuid], c)
      ensures Mirrors(RegisterStep(w, t, p.uuid, w.procs[p.uuid], c))
      ensures ok <==> p.name !in w.table && c.ok
      ensures ok <==> p.name !in w.table && old(Fits(p))
      ensures ok ==> p.Mirrors(RegisterStep(w, t, p.uuid, w.procs[p.uuid], c).procs[p.uuid])
      ensures processes == if ok then old(processes)[p.name := p] else old(processes)
    {
      hide RegisterStep, PortArguments, Fits;
      Refusal(w, t, p.uuid, w.procs[p.uuid]);
      if p.name in processes { return false, Choice(false, 0); }
      var fits := AllocateProcessPorts(p);
      if !fits { return false, Choice(false, 0); }
      processes := processes[p.name := p];
      assert Table() == old(Table())[p.name := p.uuid];
      Admission(w, t, p.uuid, w.procs[p.uuid], Choice(true, p.portStart));
      return true, Choice(true, p.portStart);
    }

    /** initProcessReplace. */
    method InitProcessReplace(p: Process, ghost w: World, ghost t: Tid)
      returns (existing: Option<Process>, ghost c: Choice)
      requires Mirrors(w) && p.uuid in w.procs && p.Mirrors(w.procs[p.uuid])
      modifies availablePorts, p`portStart, p`portEnd, p`args
      ensures c.ok ==> CanAllocate(w, w.procs[p.uuid], c)
      ensures Mirrors(ReplaceInitStep(w, t, p.uuid, w.procs[p.uuid], c))
      ensures existing.Some? <==> p.name in w.table && c.ok
      ensures existing.Some? <==> p.name in w.table && old(Fits(p))
      ensures existing.Some? ==> p.name in processes && existing.value == processes[p.name]
      ensures existing.Some? ==> p.Mirrors(ReplaceInitStep(w, t, p.uuid, w.procs[p.uuid], c).procs[p.uuid])
    {
      hide Fits;
      if p.name !in processes { return None, Choice(false, 0); }
      var fits := AllocateProcessPorts(p);
      if !fits { return None, Choice(false, 0); }
      return Some(processes[p.name]), Choice(true, p.portStart);
    }

    /** The second critical section of the unregister goroutine. */
    method RemoveProcess(p: Process, ghost w: World, ghost t: Tid)
      requires Mirrors(w) && p.uuid in w.procs && p.Mirrors(w.procs[p.uuid])
      modifies this`processes, availablePorts
      ensures Mirrors(RemoveStep(w, t, p.uuid, w.procs[p.uuid]))
      ensures processes == if Holds(w.table, p.name, p.uuid) then old(processes) - {p.name} else old(processes)
    {
      if p.name !in processes || processes[p.name].uuid != p.uuid { return; }
      processes := processes - {p.name};
      ReleaseProcessPorts(p);
    }

    /** The final critical section of ProcessReplace; false sends the caller to the cleanup. */
    method CommitReplace(p: Process, o: Process, ghost w: World, ghost t: Tid) returns (ok: bool)
      requires Mirrors(w) && p.uuid in w.procs && p.Mirrors(w.procs[p.uuid])
      requires o.uuid in w.procs && o.Mirrors(w.procs[o.uuid]) && o.uuid != p.uuid
      modifies this`processes, availablePorts
      ensures Mirrors(CommitStep(w, t, p.uuid, o.uuid, w.procs[p.uuid]))
      ensures ok <==> p.name !in w.table || w.table[p.name] == o.uuid
      ensures processes == if ok then old(processes)[p.name := p] else old(processes)
    {
      hide CommitStep;
      Commitment(w, t, p.uuid, o.uuid, w.procs[p.uuid]);
      if p.name in processes {
        if processes[p.name].uuid != o.uuid { return false; }
        ReleaseProcessPorts(o);
      }
      processes := processes[p.name := p];
      return true;
    }
  }
}
