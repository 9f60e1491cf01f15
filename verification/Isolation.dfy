/** Host tuning by start-spdk-tgt: the marker file that lets the next run repair what a crashed
    run left behind. A method returns Crashed at any point where the process may die, so what a
    contract says of that outcome holds at every crash point. */
module Isolation {
  import opened Wrappers
  import opened Bits
  import opened CpuMask
  import opened Affinity

  /** The sysfs and procfs files that are written. */
  datatype Entry =
    | DefaultIrq | Irq(n: nat)
    | GlobalWorkqueue | Workqueue(name: string)
    | RxQueue(ifname: string, n: nat)

  datatype Mechanism = IrqAffinity | WorkqueueAffinity | Rps

  /** What a run finds on the host. An entry that accepts a write accepts every one. */
  datatype Env = Env(
    irqDir: bool, irqs: seq<nat>,
    workqueueFile: bool, workqueues: seq<string>,
    netDir: bool, queues: seq<(string, nat)>,
    accepts: set<Entry>, online: nat)

  datatype Outcome = Done | Failed | Crashed

  datatype Config = Config(path: Option<string>, enabled: set<Mechanism>, cpuMask: Option<string>)

  // ----- which entries a mechanism gets to -----

  function Targets(env: Env, m: Mechanism): seq<Entry> {
    match m
    case IrqAffinity => seq(|env.irqs|, i requires 0 <= i < |env.irqs| => Irq(env.irqs[i]))
    case WorkqueueAffinity => seq(|env.workqueues|, i requires 0 <= i < |env.workqueues| => Workqueue(env.workqueues[i]))
    case Rps => seq(|env.queues|, i requires 0 <= i < |env.queues| => RxQueue(env.queues[i].0, env.queues[i].1))
  }

  /** The single entry that must be written first, and whose failure is fatal. */
  function Strict(m: Mechanism): set<Entry> {
    match m
    case IrqAffinity => {DefaultIrq}
    case WorkqueueAffinity => {GlobalWorkqueue}
    case Rps => {}
  }

  predicate Present(env: Env, m: Mechanism) {
    match m
    case IrqAffinity => env.irqDir
    case WorkqueueAffinity => env.workqueueFile
    case Rps => env.netDir
  }

  function Accepting(targets: seq<Entry>, accepts: set<Entry>): set<Entry> { set e | e in accepts && e in targets }

  /** The entries that a successful apply of m writes. */
  function Reached(env: Env, m: Mechanism): set<Entry> {
    if Present(env, m) && Strict(m) <= env.accepts then Strict(m) + Accepting(Targets(env, m), env.accepts) else {}
  }

  function Reach(env: Env): set<Entry> {
    Reached(env, IrqAffinity) + Reached(env, WorkqueueAffinity) + Reached(env, Rps)
  }

  predicate Belongs(e: Entry, m: Mechanism) {
    match m
    case IrqAffinity => e.DefaultIrq? || e.Irq?
    case WorkqueueAffinity => e.GlobalWorkqueue? || e.Workqueue?
    case Rps => e.RxQueue?
  }

  lemma Mechanisms(m: Mechanism)
    ensures m == IrqAffinity || m == WorkqueueAffinity || m == Rps
  {
  }

  lemma MechanismsApart(env: Env)
    ensures Reached(env, IrqAffinity) !! Reached(env, WorkqueueAffinity)
    ensures Reached(env, IrqAffinity) !! Reached(env, Rps)
    ensures Reached(env, WorkqueueAffinity) !! Reached(env, Rps)
  {
    assert forall m, e :: e in Reached(env, m) ==> Belongs(e, m);
  }

  /** The entries written since hold text; the others are as they were. */
  ghost predicate Overlaid(before: map<Entry, string>, after: map<Entry, string>, written: set<Entry>, text: string) {
    KeptBut(before, after, written) && forall e :: e in written ==> e in after && after[e] == text
  }

  ghost predicate KeptBut(before: map<Entry, string>, after: map<Entry, string>, changed: set<Entry>) {
    forall e :: e !in changed ==> (e in after <==> e in before) && (e in after ==> after[e] == before[e])
  }

  /** The mask that text stands for leaves the SPDK CPUs out. */
  ghost predicate Excludes(text: string, online: nat, spdk: nat) {
    KernelMask(text).Some? && Ones(KernelMask(text).value) == Ones(online) - Ones(spdk)
  }

  // ----- success, entry by entry -----

  /** The entry's text stands for exactly these CPUs. */
  ghost predicate Denoting(masks: map<Entry, string>, e: Entry, cpus: set<nat>) {
    e in masks && KernelMask(masks[e]).Some? && Ones(KernelMask(masks[e]).value) == cpus
  }

  /** The files of the mechanism are there. */
  predicate Manageable(env: Env, m: Mechanism) {
    && (m == IrqAffinity ==> env.irqDir)
    && (m == WorkqueueAffinity ==> env.workqueueFile)
    && (m == Rps ==> env.netDir)
  }

  /** The default or global entry stands for these CPUs, and so does every entry that accepts writes of
      every IRQ, workqueue or receive queue on the host. */
  ghost predicate Everywhere(env: Env, m: Mechanism, masks: map<Entry, string>, cpus: set<nat>) {
    match m
    case IrqAffinity =>
      && Denoting(masks, DefaultIrq, cpus)
      && forall n :: n in env.irqs && Irq(n) in env.accepts ==> Denoting(masks, Irq(n), cpus)
    case WorkqueueAffinity =>
      && Denoting(masks, GlobalWorkqueue, cpus)
      && forall name :: name in env.workqueues && Workqueue(name) in env.accepts ==> Denoting(masks, Workqueue(name), cpus)
    case Rps =>
      forall q :: q in env.queues && RxQueue(q.0, q.1) in env.accepts ==> Denoting(masks, RxQueue(q.0, q.1), cpus)
  }

  /** m is set up for spdkMask: its files are there and, where Python can read the mask, interrupts, workers
      or packets stay on the online CPUs outside it. */
  ghost predicate Tuned(env: Env, m: Mechanism, masks: map<Entry, string>, spdkMask: string) {
    && Manageable(env, m)
    && (ReadAnyBase(spdkMask).Some? ==>
          Everywhere(env, m, masks, Ones(env.online) - Ones(ReadAnyBase(spdkMask).value)))
  }

  /** m is back on all online CPUs; a host without the global workqueue file has nothing to clear. */
  ghost predicate Restored(env: Env, m: Mechanism, masks: map<Entry, string>) {
    || (m == WorkqueueAffinity && !env.workqueueFile)
    || (Manageable(env, m) && Everywhere(env, m, masks, Ones(env.online)))
  }

  lemma TargetsListed(env: Env, m: Mechanism)
    ensures m == IrqAffinity ==> forall n :: n in env.irqs ==> Irq(n) in Targets(env, m)
    ensures m == WorkqueueAffinity ==> forall name :: name in env.workqueues ==> Workqueue(name) in Targets(env, m)
    ensures m == Rps ==> forall q :: q in env.queues ==> RxQueue(q.0, q.1) in Targets(env, m)
  {
    var ts := Targets(env, m);
    if m == IrqAffinity {
      forall n | n in env.irqs ensures Irq(n) in ts { var i :| 0 <= i < |env.irqs| && env.irqs[i] == n; assert ts[i] == Irq(n); }
    } else if m == WorkqueueAffinity {
      forall w | w in env.workqueues ensures Workqueue(w) in ts {
        var i :| 0 <= i < |env.workqueues| && env.workqueues[i] == w;
        assert ts[i] == Workqueue(w);
      }
    } else {
      forall q | q in env.queues ensures RxQueue(q.0, q.1) in ts {
        var i :| 0 <= i < |env.queues| && env.queues[i] == q;
        assert ts[i] == RxQueue(q.0, q.1);
      }
    }
  }

  /** What has been written everywhere a mechanism gets to is everywhere. */
  lemma ReachedEverywhere(env: Env, m: Mechanism, masks: map<Entry, string>, cpus: set<nat>)
    requires Present(env, m) && Strict(m) <= env.accepts && forall e :: e in Reached(env, m) ==> Denoting(masks, e, cpus)
    ensures Manageable(env, m) && Everywhere(env, m, masks, cpus)
  {
    hide Denoting, Targets;
    TargetsListed(env, m);
  }

  lemma WrittenEverywhere(env: Env, m: Mechanism, before: map<Entry, string>, after: map<Entry, string>, text: string)
    requires Present(env, m) && Strict(m) <= env.accepts && Overlaid(before, after, Reached(env, m), text)
    ensures Manageable(env, m)
    ensures KernelMask(text).Some? ==> Everywhere(env, m, after, Ones(KernelMask(text).value))
  {
    hide Reached, KernelMask, Everywhere;
    if KernelMask(text).Some? { ReachedEverywhere(env, m, after, Ones(KernelMask(text).value)); }
  }

  /** Another mechanism does not touch it. */
  lemma EverywhereStays(env: Env, m: Mechanism, before: map<Entry, string>, after: map<Entry, string>, other: Mechanism, cpus: set<nat>)
    requires Everywhere(env, m, before, cpus) && m != other && KeptBut(before, after, Reached(env, other))
    ensures Everywhere(env, m, after, cpus)
  {
    hide Reached, KernelMask;
    ReachedBelongs(env, other);
  }

  lemma ReachedBelongs(env: Env, m: Mechanism)
    ensures forall e :: e in Reached(env, m) ==> Belongs(e, m)
  {
  }

  lemma TunedStays(env: Env, m: Mechanism, before: map<Entry, string>, after: map<Entry, string>, other: Mechanism, spdkMask: string)
    requires Tuned(env, m, before, spdkMask) && m != other && KeptBut(before, after, Reached(env, other))
    ensures Tuned(env, m, after, spdkMask)
  {
    hide Reached, Everywhere, KeptBut;
    if ReadAnyBase(spdkMask).Some? {
      EverywhereStays(env, m, before, after, other, Ones(env.online) - Ones(ReadAnyBase(spdkMask).value));
    }
  }

  lemma RestoredStays(env: Env, m: Mechanism, before: map<Entry, string>, after: map<Entry, string>, other: Mechanism)
    requires Restored(env, m, before) && m != other && KeptBut(before, after, Reached(env, other))
    ensures Restored(env, m, after)
  {
    hide Reached, Everywhere, KeptBut;
    if Everywhere(env, m, before, Ones(env.online)) { EverywhereStays(env, m, before, after, other, Ones(env.online)); }
  }

  class Host {
    var masks: map<Entry, string>
    /** Control paths that have a marker file, with the mask it records. */
    var markers: map<string, string>
    /** The entries holding a mask that a set function wrote. */
    ghost var restricted: set<Entry>
    /** The control path of the last run that wrote a marker. */
    ghost var installer: Option<string>
    /** What the last successful repair did not reach. */
    ghost var left: set<Entry>

    constructor ()
      ensures masks == map[] && markers == map[] && restricted == {} && installer == None && left == {}
    {
      masks, markers, restricted, installer, left := map[], map[], {}, None, {};
    }

    /** One write of a mask into an entry that accepts it. */
    method Write(e: Entry, text: string, ghost restricting: bool)
      modifies this`masks, this`restricted
      ensures masks == old(masks)[e := text]
      ensures restricted == if restricting then old(restricted) + {e} else old(restricted) - {e}
    {
      masks := masks[e := text];
      restricted := if restricting then restricted + {e} else restricted - {e};
    }

    /** The loops over IRQs, workqueues and receive queues: rejected writes are skipped. */
    method WriteEach(targets: seq<Entry>, accepts: set<Entry>, text: string, ghost restricting: bool)
      returns (o: Outcome, ghost written: set<Entry>)
      modifies this`masks, this`restricted
      ensures o == Done || o == Crashed
      ensures written <= Accepting(targets, accepts)
      ensures o == Done ==> written == Accepting(targets, accepts)
      ensures Overlaid(old(masks), masks, written, text)
      ensures restricted == if restricting then old(restricted) + written else old(restricted) - written
    {
      written := {};
      for i := 0 to |targets|
        invariant written == Accepting(targets[..i], accepts)
        invariant Overlaid(old(masks), masks, written, text)
        invariant restricted == if restricting then old(restricted) + written else old(restricted) - written
      {
        if * { return Crashed, written; }
        if targets[i] in accepts {
          Write(targets[i], text, restricting);
          written := written + {targets[i]};
        }
        assert targets[..i + 1] == targets[..i] + [targets[i]];
      }
      assert targets[..|targets|] == targets;
      return Done, written;
    }

    /** apply_irq_affinity, apply_workqueue_affinity and apply_rps. */
    method Apply(env: Env, m: Mechanism, text: string, ghost restricting: bool)
      returns (o: Outcome, ghost written: set<Entry>)
      modifies this`masks, this`restricted
      ensures written <= Reached(env, m)
      ensures o == Done ==> Present(env, m) && Strict(m) <= env.accepts && written == Reached(env, m)
      ensures o == Done ==>
                && Manageable(env, m)
                && (KernelMask(text).Some? ==> Everywhere(env, m, masks, Ones(KernelMask(text).value)))
      ensures Overlaid(old(masks), masks, written, text)
      ensures restricted == if restricting then old(restricted) + written else old(restricted) - written
    {
      written := {};
      if !Present(env, m) { return Failed, written; }
      if Strict(m) != {} {
        var e := if m == IrqAffinity then DefaultIrq else GlobalWorkqueue;
        if e !in env.accepts { return Failed, written; }
        if * { return Failed, written; }
        if * { return Crashed, written; }
        Write(e, text, restricting);
        written := {e};
      }
      ghost var rest;
      o, rest := WriteEach(Targets(env, m), env.accepts, text, restricting);
      written := written + rest;
      if o == Done { WrittenEverywhere(env, m, old(masks), masks, text); }
    }

    /** clear_irq_affinity, clear_workqueue_affinity and clear_rps. */
    method Clear(env: Env, m: Mechanism) returns (o: Outcome)
      modifies this`masks, this`restricted
      ensures old(restricted) - Reached(env, m) <= restricted <= old(restricted)
      ensures o == Done ==> restricted == old(restricted) - Reached(env, m)
      ensures o == Done ==> forall e :: e in Reached(env, m) ==> e in masks && KernelMask(masks[e]) == Some(env.online)
      ensures KeptBut(old(masks), masks, Reached(env, m))
      ensures o == Done ==> Restored(env, m, masks)
    {
      hide Everywhere;
      if m == WorkqueueAffinity && !env.workqueueFile { return Done; }
      if * { return Failed; }
      PrintedOnline(env.online);
      var text := AffinityOfAll(HexText(env.online));
      if text.None? { return Failed; }
      ghost var written;
      o, written := Apply(env, m, text.value, false);
    }

    /** clear_cpu_isolation: a mechanism that fails keeps no other one from being cleared. */
    method ClearCpuIsolation(env: Env) returns (o: Outcome, ghost failed: set<Mechanism>)
      modifies this`masks, this`restricted
      ensures old(restricted) - Reach(env) <= restricted <= old(restricted)
      ensures o != Crashed ==> (o == Done <==> failed == {})
      ensures o != Crashed ==> forall m :: m !in failed ==> restricted !! Reached(env, m)
      ensures o == Done ==> restricted == old(restricted) - Reach(env)
      ensures o == Done ==> forall e :: e in Reach(env) ==> e in masks && KernelMask(masks[e]) == Some(env.online)
      ensures o != Crashed ==> forall m :: m !in failed ==> Restored(env, m, masks)
    {
      hide Reached, KernelMask, Restored;
      MechanismsApart(env);
      failed := {};
      o := Done;
      var r := Clear(env, IrqAffinity);
      if r == Crashed { return Crashed, failed; }
      if r == Failed { o, failed := Failed, failed + {IrqAffinity}; }
      ghost var was := masks;
      r := Clear(env, WorkqueueAffinity);
      if IrqAffinity !in failed { RestoredStays(env, IrqAffinity, was, masks, WorkqueueAffinity); }
      if r == Crashed { return Crashed, failed; }
      if r == Failed { o, failed := Failed, failed + {WorkqueueAffinity}; }
      was := masks;
      r := Clear(env, Rps);
      if IrqAffinity !in failed { RestoredStays(env, IrqAffinity, was, masks, Rps); }
      if WorkqueueAffinity !in failed { RestoredStays(env, WorkqueueAffinity, was, masks, Rps); }
      if r == Crashed { return Crashed, failed; }
      if r == Failed { o, failed := Failed, failed + {Rps}; }
      forall m | m !in failed ensures restricted !! Reached(env, m) && Restored(env, m, masks) { Mechanisms(m); }
    }

    /** reconcile_previous_cpu_mask_file. The marker goes only after everything has been cleared. */
    method Reconcile(env: Env, path: string) returns (o: Outcome)
      modifies this`masks, this`restricted, this`markers, this`left
      ensures old(restricted) - Reach(env) <= restricted <= old(restricted)
      ensures path !in old(markers) ==> o == Done && restricted == old(restricted) && masks == old(masks)
      ensures path in old(markers) && o == Done ==> restricted == LeftRestricted(old(restricted), env)
      ensures path in old(markers) && o == Done ==> forall m :: Restored(env, m, masks)
      ensures left == if path in old(markers) && o == Done then restricted else old(left)
      ensures markers == if o == Done then old(markers) - {path} else old(markers)
    {
      if path !in markers { return Done; }
      ghost var failed;
      o, failed := ClearCpuIsolation(env);
      if o != Done { return; }
      if * { return Failed; }
      if * { return Crashed; }
      markers := markers - {path};
      left := restricted;
    }

    /** set_irq_affinity_for_spdk_mask and its two siblings. A mask that Python cannot read comes out empty. */
    method Set(env: Env, m: Mechanism, spdkMask: string) returns (o: Outcome)
      modifies this`masks, this`restricted
      ensures old(restricted) <= restricted <= old(restricted) + Reached(env, m)
      ensures KeptBut(old(masks), masks, Reached(env, m))
      ensures o == Done ==> Present(env, m) && Reached(env, m) <= restricted
      ensures o == Done && ReadAnyBase(spdkMask).Some? ==>
                && !(Ones(env.online) <= Ones(ReadAnyBase(spdkMask).value))
                && forall e :: e in Reached(env, m) ==> e in masks && Excludes(masks[e], env.online, ReadAnyBase(spdkMask).value)
      ensures o == Done ==> Tuned(env, m, masks, spdkMask)
    {
      hide Everywhere;
      if * { return Failed; }
      PrintedOnline(env.online);
      var text := AffinityExcluding(HexText(env.online), spdkMask);
      if text.None? { return Failed; }
      ghost var written;
      o, written := Apply(env, m, text.value, true);
    }

    /** apply_cpu_isolation_for_spdk_mask. */
    method ApplyCpuIsolation(env: Env, enabled: set<Mechanism>, spdkMask: string) returns (o: Outcome)
      modifies this`masks, this`restricted
      ensures old(restricted) <= restricted <= old(restricted) + Reach(env)
      ensures o == Done ==> forall m :: m in enabled ==> Isolated(env, m, spdkMask) && Tuned(env, m, masks, spdkMask)
    {
      hide Reached, Excludes, Present, Tuned;
      MechanismsApart(env);
      o := Done;
      if IrqAffinity in enabled {
        o := Set(env, IrqAffinity, spdkMask);
        if o != Done { return; }
      }
      ghost var was := masks;
      if WorkqueueAffinity in enabled {
        o := Set(env, WorkqueueAffinity, spdkMask);
        if o != Done { return; }
        if IrqAffinity in enabled { TunedStays(env, IrqAffinity, was, masks, WorkqueueAffinity, spdkMask); }
        assert IrqAffinity in enabled ==> Isolated(env, IrqAffinity, spdkMask);
      }
      was := masks;
      if Rps in enabled {
        o := Set(env, Rps, spdkMask);
        if o != Done { return; }
        if IrqAffinity in enabled { TunedStays(env, IrqAffinity, was, masks, Rps, spdkMask); }
        if WorkqueueAffinity in enabled { TunedStays(env, WorkqueueAffinity, was, masks, Rps, spdkMask); }
        assert IrqAffinity in enabled ==> Isolated(env, IrqAffinity, spdkMask);
        assert WorkqueueAffinity in enabled ==> Isolated(env, WorkqueueAffinity, spdkMask);
      }
      forall m | m in enabled ensures Isolated(env, m, spdkMask) && Tuned(env, m, masks, spdkMask) { Mechanisms(m); }
    }

    /** Every entry that m gets to is restricted to the online CPUs outside the SPDK mask. */
    ghost predicate Isolated(env: Env, m: Mechanism, spdkMask: string)
      reads this
    {
      && Present(env, m) && Reached(env, m) <= restricted
      && (ReadAnyBase(spdkMask).Some? ==>
            forall e :: e in Reached(env, m) ==> e in masks && Excludes(masks[e], env.online, ReadAnyBase(spdkMask).value))
    }

    /** persist_cpu_mask_and_apply_cpu_isolation: the marker is in place before anything is restricted. */
    method Persist(env: Env, path: string, enabled: set<Mechanism>, spdkMask: string) returns (o: Outcome)
      modifies this`masks, this`restricted, this`markers, this`installer
      ensures old(restricted) <= restricted <= old(restricted) + Reach(env)
      ensures restricted != old(restricted) ==> path in markers && installer == Some(path)
      ensures (markers == old(markers) && installer == old(installer) && restricted == old(restricted))
              || (markers == old(markers)[path := spdkMask] && installer == Some(path))
      ensures o == Done ==>
                path in markers && forall m :: m in enabled ==> Isolated(env, m, spdkMask) && Tuned(env, m, masks, spdkMask)
    {
      if spdkMask == "" { return Failed; }
      if * { return Failed; }
      if * { return Crashed; }
      markers := markers[path := spdkMask];
      installer := Some(path);
      o := ApplyCpuIsolation(env, enabled, spdkMask);
    }

    /** Whatever is restricted, but for what a successful repair did not reach, the run that
        restricted it last has left its marker. */
    ghost predicate Guarded()
      reads this
    {
      !(restricted <= left) ==> installer.Some? && installer.value in markers
    }

    /** One run of the script, up to the exec of instance-manager (Done), its own exit, or a crash. */
    method Run(env: Env, c: Config) returns (o: Outcome, ghost atStart: Option<set<Entry>>)
      requires Guarded()
      modifies this
      ensures Guarded() && restricted <= old(restricted) + Reach(env)
      ensures atStart.Some? && c.path.Some? ==>
                atStart.value == if c.path.value in old(markers) then LeftRestricted(old(restricted), env) else old(restricted)
      ensures left == if atStart.Some? && c.path.Some? && c.path.value in old(markers) then atStart.value else old(left)
      ensures atStart.None? ==>
                o != Done && markers == old(markers) && installer == old(installer) && restricted <= old(restricted)
      ensures c.path.None? ==> restricted == old(restricted) && masks == old(masks) && markers == old(markers)
      ensures o == Done ==> atStart.Some?
      ensures o == Done && c.path.Some? && c.enabled != {} ==>
                && c.cpuMask.Some? && c.path.value in markers
                && forall m :: m in c.enabled ==> Isolated(env, m, c.cpuMask.value) && Tuned(env, m, masks, c.cpuMask.value)
      ensures o == Done && c.path.Some? && c.enabled == {} && c.path.value in old(markers) ==> forall m :: Restored(env, m, masks)
      ensures !(restricted <= old(restricted)) ==> c.path.Some? && installer == c.path
      ensures installer == old(installer) || (c.path.Some? && installer == c.path)
      ensures forall p :: p in old(markers) && c.path != Some(p) ==> p in markers
    {
      if c.path.Some? {
        o := Reconcile(env, c.path.value);
        if o != Done { return o, None; }
      }
      atStart := Some(restricted);
      if * { return Crashed, atStart; }
      if c.cpuMask.None? { return Failed, atStart; }
      if c.enabled != {} && c.path.Some? {
        o := Persist(env, c.path.value, c.enabled, c.cpuMask.value);
        return o, atStart;
      }
      return Done, atStart;
    }

    /** Any sequence of runs, each with its own flags and control path, on a host that may look
        different each time, and ending in its own way. If every repair reached everything,
        what is restricted has its marker; every repair does on a host where later runs
        reach what earlier ones could. */
    method Runs(envs: seq<Env>, cs: seq<Config>) returns (ghost log: seq<Start>)
      requires restricted == {} && left == {} && |envs| == |cs|
      modifies this
      ensures |log| == |cs| && forall k :: 0 <= k < |cs| ==> Started(envs[k], cs[k], log[k])
      ensures AllRepaired(log) ==> (restricted != {} ==> installer.Some? && installer.value in markers)
      ensures forall p :: OnlyPath(cs, p) && AllRepaired(log) ==> (restricted != {} ==> p in markers) && AllClean(cs, log)
      ensures Lasting(envs) ==> AllRepaired(log)
    {
      hide AllRepaired, AllClean, OnlyPath, Started, Reach;
      Beginning();
      log := [];
      for i := 0 to |cs|
        invariant Guarded() && |log| == i
        invariant forall k :: 0 <= k < i ==> Started(envs[k], cs[k], log[k])
        invariant AllRepaired(log) ==> left == {}
        invariant forall p :: OnlyPath(cs[..i], p) && AllRepaired(log) ==>
                    (restricted != {} ==> installer == Some(p)) && AllClean(cs[..i], log)
        invariant Lasting(envs) ==> AllRepaired(log) && if i == 0 then restricted == {} else restricted <= Reach(envs[i - 1])
      {
        ghost var found := cs[i].path.Some? && cs[i].path.value in markers;
        ghost var before, was := restricted, log;
        var o;
        ghost var s;
        o, s := Run(envs[i], cs[i]);
        log := log + [Start(found, before, s)];
        LogExtends(cs[..i], was, cs[i], Start(found, before, s));
        StartsSo(envs[i], cs[i], Start(found, before, s));
        assert Lasting(envs) && i > 0 ==> Reach(envs[i - 1]) <= Reach(envs[i]);
        assert Lasting(envs) ==> LeftRestricted(before, envs[i]) == {};
        assert cs[..i + 1] == cs[..i] + [cs[i]];
      }
      assert cs[..|cs|] == cs;
    }
  }

  /** How a run begins: whether its own marker was there, what was restricted, and what still was
      when it got past reconcile. */
  datatype Start = Start(found: bool, before: set<Entry>, atStart: Option<set<Entry>>)

  ghost predicate Started(env: Env, c: Config, s: Start) {
    c.path.Some? && s.atStart.Some? ==> s.atStart.value == if s.found then LeftRestricted(s.before, env) else s.before
  }

  /** A repair that was due, and succeeded, left nothing restricted. */
  predicate Repaired(s: Start) { s.found && s.atStart.Some? ==> s.atStart.value == {} }

  predicate AllRepaired(log: seq<Start>) { forall k :: 0 <= k < |log| ==> Repaired(log[k]) }

  /** What a run reaches, every later run reaches. */
  predicate Lasting(envs: seq<Env>) { forall i, j :: 0 <= i < j < |envs| ==> Reach(envs[i]) <= Reach(envs[j]) }

  /** No run with a control path that got past reconcile found a restricted entry. */
  ghost predicate AllClean(cs: seq<Config>, log: seq<Start>)
    requires |log| == |cs|
  {
    forall k :: 0 <= k < |cs| && cs[k].path.Some? && log[k].atStart.Some? ==> log[k].atStart.value == {}
  }

  /** Every run that has a control path has this one. */
  ghost predicate OnlyPath(cs: seq<Config>, p: string) {
    forall k :: 0 <= k < |cs| ==> cs[k].path in {None, Some(p)}
  }

  lemma StartsSo(env: Env, c: Config, s: Start)
    requires c.path.Some? && s.atStart.Some? ==>
               s.atStart.value == if s.found then LeftRestricted(s.before, env) else s.before
    ensures Started(env, c, s)
  {
  }

  lemma Beginning()
    ensures AllRepaired([]) && AllClean([], []) && forall p :: OnlyPath([], p)
  {
  }

  lemma LogExtends(cs: seq<Config>, log: seq<Start>, c: Config, s: Start)
    requires |log| == |cs|
    ensures AllRepaired(log + [s]) <==> AllRepaired(log) && Repaired(s)
    ensures AllClean(cs + [c], log + [s]) <==>
            AllClean(cs, log) && (c.path.Some? && s.atStart.Some? ==> s.atStart.value == {})
    ensures forall p :: OnlyPath(cs + [c], p) <==> OnlyPath(cs, p) && c.path in {None, Some(p)}
  {
    var n, ds, more := |log|, cs + [c], log + [s];
    assert more[n] == s && ds[n] == c && more[..n] == log && ds[..n] == cs;
    assert forall k :: 0 <= k < n ==> more[k] == log[k] && ds[k] == cs[k];
    forall p | OnlyPath(ds, p) ensures OnlyPath(cs, p) && c.path in {None, Some(p)} {
      assert ds[n].path in {None, Some(p)};
      forall k | 0 <= k < n ensures cs[k].path in {None, Some(p)} { assert ds[k].path in {None, Some(p)}; }
    }
    if AllRepaired(more) {
      assert Repaired(more[n]);
      forall k | 0 <= k < n ensures Repaired(log[k]) { assert Repaired(more[k]); }
    }
  }

  // ----- how far a repair reaches -----

  /** What is still restricted after a successful reconcile that found its marker. */
  function LeftRestricted(restricted: set<Entry>, env: Env): set<Entry> { restricted - Reach(env) }

  /** A successful apply of m gets to e: the mechanism's files are there and the entry accepts. */
  predicate Gets(env: Env, m: Mechanism, e: Entry) {
    && Present(env, m) && Strict(m) <= env.accepts
    && e in env.accepts && (e in Strict(m) || e in Targets(env, m))
  }

  /** The repair is complete exactly when this run gets to every restricted entry. */
  lemma RepairComplete(restricted: set<Entry>, env: Env)
    ensures LeftRestricted(restricted, env) == {} <==> forall e :: e in restricted ==> exists m :: Gets(env, m, e)
  {
    forall e ensures e in Reach(env) <==> exists m :: Gets(env, m, e) {
      forall m ensures e in Reached(env, m) <==> Gets(env, m, e) { hide Targets, Present, Strict; }
      hide Gets, Reached;
      if m :| Gets(env, m, e) { Mechanisms(m); }
    }
    hide Reach, Gets;
    assert forall e :: e in LeftRestricted(restricted, env) <==> e in restricted && e !in Reach(env);
  }

  /** Where the global workqueue file has gone since, the clear is skipped as nothing to do, and
      the marker goes while a workqueue stays restricted. */
  lemma HiddenFileLeavesRestriction(name: string)
    ensures var before := Env(true, [], true, [name], true, [], {DefaultIrq, GlobalWorkqueue, Workqueue(name)}, 1);
            var after := before.(workqueueFile := false);
            Workqueue(name) in LeftRestricted(Reached(before, WorkqueueAffinity), after)
  {
    var before := Env(true, [], true, [name], true, [], {DefaultIrq, GlobalWorkqueue, Workqueue(name)}, 1);
    assert Targets(before, WorkqueueAffinity)[0] == Workqueue(name);
    MechanismsApart(before);
  }
}
