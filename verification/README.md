# Verified model of the Longhorn instance manager

Three parts of the instance manager, modelled in Dafny and proved correct.

**The process manager** (`pkg/process`, `pkg/util/broadcaster`). `Protocol` is a state machine whose
steps are the critical sections, channel sends and unsynchronised accesses of create, delete and
replace calls and of the run, readiness, stop and unregister goroutines. Each activity has its own
program counter, all of them interleave freely, and labels resolve what the environment decides
(the bitmap's choice, whether a command starts or fails, whether a probe succeeds, the clock).
`ProtocolInv` states the invariant as a contract between activities: what each point of an activity
may rely on, and which activity must still act for each process in each of six roles (owner,
starter, runner, reader, closer, settler). `ProtocolSteps` and `ProtocolPreserve` prove that every step
keeps it, `ProtocolTheorems` draws the conclusions over whole runs (conservation of ports and log
writers, compare-and-swap on UUIDs, the lifecycle bound, no wedge), `ProtocolExtremes` shows that the
lifecycle bound is sharp and that a pending readiness goroutine can defeat a delete, and
`ProtocolDelete` proves that one delete of a started process, running or not, completes whatever
else goes on, if the readiness goroutine has given its verdict before the call and the unregister
goroutine's verdict comes after the stop and the command have ended. `ProtocolWaits` shows that it does
not come early: such a delete gives up only after 600 polls. `ProtocolCauses` traces every consequential step
(a kill, an unlocked write, a removal, the outcome and the readiness of a command) back to what
justified it, `ProtocolReplace` does so for the commit of a replacement and says what a failed one
leaves behind, and `ProtocolActs` is the bookkeeping of activities that these share. `Manager` and
`Bitmap` are the mutable objects themselves; their methods are proved to do what the protocol's steps do. `Locking`,
`LockPaths` and `LockProgress` model the locks and unbuffered channels, with the path of every call
and goroutine, and prove that no run deadlocks or livelocks; `LockSteps` ties the two models
together. `Broadcaster` is the fan-out of process updates.

**SPDK CPU isolation** (`package/start-spdk-tgt`, `package/instance-manager`). `Bits` is Python's
unbounded two's-complement arithmetic; `CpuMask`, `CpuReaders`, `CpuSelect` and `Affinity` read CPU
lists, pick CPUs from a cpuset, split a mask and print it for the kernel; `Isolation` is the marker-file protocol
by which a run repairs what a crashed one left behind.

**V2 replica status recovery** (`pkg/proxy`). `CloneStatus` and `BackupStatus` aggregate over Go maps
whose iteration order is unspecified; `NameOrder` is the order that removes the choice.

Where the code and its comments differ the model follows the code. Two places: reconcile is described
as leaving the host in a known state, which holds exactly if the repairing run reaches everything
that was restricted (`Isolation.RepairComplete`); and the two scripts share a notation for CPUs that
they do not always read alike. `CpuReaders.ReadersCompared` says exactly which lists they read alike,
and `Affinity.UnprefixedReadings` exactly which masks without `0x`: single decimal digits and zero.
A third result is about the port bitmap: its search can miss a block that fits exactly, and
`Bitmap.SearchMisses` says exactly when.

Assumptions of the protocol: UUIDs are fresh, the port range is positive, and one critical section is
one step. The last one rests on three results: the activities of the protocol follow the paths of
`LockPaths` in every run (`LockSteps.CallsFollowPaths`), a step that writes the table, the bitmap or a
process takes the lock for it (`LockSteps.TableAndBitmapAreLocked`, `LockSteps.ProcessIsLocked`, with
the stop goroutine's unlocked write as the one exception, which is a step of its own), and a lock held
for writing is held by nobody else (`Locking.StepKeepsExclusion`). Ports are those of the ledger: a process
can be Stopped before its command has been launched, so nothing is said about sockets.

## Model

| member | source | states |
|---|---|---|
| ProtocolInv.InitInv | pkg/process/process_manager.go:64-101 | a new manager, with no process and every port of its range free, satisfies the invariant of the whole protocol |
| ProtocolPreserve.NextInv | pkg/process/process_manager.go:182-316 | every step of every call and goroutine, in any interleaving, and every new call keep the invariant: who owns each port, who will start, settle and close each process, and what each activity may rely on |
| ProtocolPreserve.RegisterInv | pkg/process/process_manager.go:260-277 | registering a created process under a free name with an allocated range keeps the invariant |
| ProtocolPreserve.ReplaceInitInv | pkg/process/process_manager.go:561-576 | admitting a replacement, which takes ports without entering the table, keeps the invariant |
| ProtocolPreserve.RefuseInv | pkg/process/process_manager.go:215-220 | a create or replace that is refused holds nothing but the duty to close its log writer |
| ProtocolPreserve.RemoveStepInv | pkg/process/process_manager.go:302-311 | the unregister goroutine's last critical section, which compares UUIDs before it deletes and releases, keeps the invariant |
| ProtocolPreserve.CommitInv | pkg/process/process_manager.go:537-554 | the commit of a replacement keeps the invariant on each of its three branches: empty slot, the captured process, another process |
| ProtocolPreserve.DropInv | pkg/process/process_manager.go:492-508 | a replacement that turns out to be unneeded or fails gives its ports back and leaves |
| ProtocolPreserve.LocalInv | pkg/process/process.go:51-219 | every other step, including the unconditional writes of the run, readiness and stop goroutines, keeps the invariant |
| ProtocolSteps.StopClaimFine | pkg/process/process.go:150-180 | the critical section of StopWithSignal keeps what every other activity relies on, on all four outcomes: graceful claim, timeout kill, close only, nothing |
| ProtocolSteps.LocalFine | pkg/process/process.go:51-219 | at each of the points of a call or goroutine, its step keeps what the other activities rely on and hands its duties on |
| ProtocolTheorems.RunInv | pkg/process/process_manager.go:182-316 | the invariant holds after every step of every run |
| ProtocolTheorems.StageMeaning | pkg/process/process_manager.go:260-277 | a process is listed in the table exactly while it is registered, and in the hands of one call exactly until it is registered or dropped |
| ProtocolTheorems.PortConservation | pkg/process/process_manager.go:407-426 | at every step of every run each port of the range is free or held by exactly one process that is listed or in one call's hands, and nothing outside the range is handed out |
| ProtocolTheorems.NoPortIsLost | pkg/process/process_manager.go:492-508 | with no create or replace in progress, a port that is not free belongs to a listed process |
| ProtocolTheorems.GivingBack | pkg/process/process_manager.go:601-606 | whatever path gives a process's ports back, none of them was free, exactly those become free, and the process leaves for good |
| ProtocolTheorems.BitmapGrows | pkg/process/process_manager.go:421-426 | a port becomes free in no other way: whenever one does, a process that held it gives its range back in that step |
| ProtocolTheorems.GoneMeansGiven | pkg/process/process_manager.go:492-508 | a process that held ports and leaves gives them back in that step |
| ProtocolTheorems.ReleasedOnce | pkg/process/process_manager.go:501-508 | in a whole run a process's range is given back at most once, which is the hazard the source's own comment warns of; BitmapGrows says that these are all the ways to give back |
| ProtocolTheorems.TableWrites | pkg/process/process_manager.go:279-311 | a table entry changes only by a create filling an empty slot, an unregister removing its own process, or a replace overwriting an empty slot or the very process it captured |
| ProtocolTheorems.CommitRetires | pkg/process/process_manager.go:537-554 | a committed replacement retires the process it captured, whether or not it was still listed |
| ProtocolTheorems.SecondReplaceFindsEmptySlot | pkg/process/process_manager.go:535-554 | two replaces that captured the same process both succeed only if the slot was empty at the later commit |
| ProtocolTheorems.WriterConservation | pkg/process/process.go:187-192 | every log writer ever opened is closed, or about to be closed by some activity, or belongs to a listed process or a call in progress; Stopping implies a deletion timestamp, and a timestamp implies that the writer is closed or about to be |
| ProtocolTheorems.DeleteProvenance | pkg/process/process_manager.go:238-258 | every activity of a delete goes back to a lookup that found that process under that name with the UUID asked for |
| ProtocolTheorems.RemovalWasRequested | pkg/process/process_manager.go:241-254 | whenever an entry disappears, a delete had earlier looked up that very process, by UUID or by name alone |
| ProtocolTheorems.ReplaceProvenance | pkg/process/process_manager.go:488-554 | the process a replace goes by was found by the same call: at its admission the table held that process under the replacement's name |
| ProtocolTheorems.ReplacementWasCaptured | pkg/process/process_manager.go:535-554 | whenever an entry passes from one process to another, a replace had earlier been admitted under that name while the table held that very process, and its own process takes the place |
| ProtocolReplace.CommitWasEarned | pkg/process/process_manager.go:484-533 | before a replace reaches its commit the same call was admitted while the table held the old process, found that it runs another binary, started its own without failure, and saw it Running, or Starting in each of 30 polls; only then did it go to stop the old one |
| ProtocolReplace.ReplacementWasEarned | pkg/process/process_manager.go:535-554 | so it is whenever an entry passes from one process to another |
| ProtocolReplace.FailedReplaceLeaves | pkg/process/process_manager.go:501-530 | a replace that finds the same binary, fails to start, finds its process Stopping, Stopped or Error in one of 30 polls, or finds another process in the table: its process is listed at no moment of the run, from then on the call stops nobody but that process and leaves the table alone, and when it has ended the process is gone and its ports were given back exactly once |
| ProtocolReplace.FailedReplaceSparesOld | pkg/process/process_manager.go:492-530 | where it fails before the commit, no step of the call, at any moment of the run, stops any other process or changes the table |
| ProtocolActs.GivenAsAsked | pkg/process/process_manager.go:578-587 | in every run a process has a name and a binary, and while it holds ports they are one range of exactly the count asked for, with no more arguments than ports |
| ProtocolTheorems.StepLater | pkg/process/process.go:64-107 | in one step a process's stage, log and readiness only move forward, and it leaves {Stopped, Error}, or becomes claimable, only by the readiness goroutine's one write |
| ProtocolTheorems.LifecycleBound | pkg/process/process.go:150-171 | over a whole run a process leaves {Stopped, Error} at most once and its graceful stop is claimed at most twice, whatever the order of its goroutines |
| ProtocolExtremes.BoundsAttained | pkg/process/process.go:86-106 | both bounds are attained: a run in which the readiness goroutine revives a failed process and the stop is claimed twice |
| ProtocolTheorems.NoWedge | pkg/process/process.go:194-199 | a listed process for which no start, run, readiness or claimed stop is pending is Stopped, Error or Running, its command is not live, and its goroutines have had their say |
| ProtocolDelete.CourseStep | pkg/process/process_manager.go:279-316 | any step of anybody keeps a delete on course, provided the unregister goroutine does not give its verdict while a claimed stop is settling or the command has not been reaped, and a turn of its own uses up work |
| ProtocolDelete.DeleteCompletes | pkg/process/process_manager.go:238-316 | in any run, with calls arriving, other activities moving and the clock advancing at any moment: a delete of a listed process that was started and whose readiness goroutine has given its verdict, with its command live or not, takes at most 608 turns of its own, and once it has ended the process is gone, out of the table, and its ports were given back exactly once |
| ProtocolWaits.DeleteIsPatient | pkg/process/process_manager.go:288-300 | in any run, with no assumption of fairness: a delete of a process that was started and whose readiness goroutine has given its verdict, if it ends while that process is not gone, took at least 605 turns, and 600 of them were polls, numbered 0 to 599, each of which found the process neither Stopped nor Error |
| ProtocolDelete.SettlingEnds | pkg/process/process.go:187-218 | a claimed stop settles after at most six turns of its own, and nothing others do prolongs it |
| ProtocolDelete.RunEnds | pkg/process/process.go:65-84 | a run goroutine ends after at most three turns of its own: the launch, the return of the command and the write of its outcome; nothing others do prolongs it |
| ProtocolCauses.KillIsDue | pkg/process/process.go:187-217 | a process is killed only by a goroutine that found its command live, and that was started either by a stop that came more than 60000 ms after the first one, or by a graceful one and polled 600 times without finding it Stopped or Error |
| ProtocolCauses.UnlockedWriteIsDue | pkg/process/process.go:194-200 | the stop goroutine writes Stopped without the lock only where there was no command or it was not live, and after seeing the process not Stopped and then not Error |
| ProtocolCauses.RemovalSawStopped | pkg/process/process_manager.go:297-311 | the unregister goroutine removes only what it has itself found Stopped or Error |
| ProtocolCauses.OutcomeIsReported | pkg/process/process.go:65-84 | the run goroutine writes Error exactly where the launch or the command failed, else Stopped |
| ProtocolCauses.ReadinessIsProbed | pkg/process/process.go:86-105 | the readiness goroutine reports Running exactly where there is nothing to probe or the probe succeeded; otherwise it goes on to check whether to stop the process |
| ProtocolCauses.FailedProbeStops | pkg/process/process.go:95-98 | and where it then finds the process neither Stopped nor Error it does not end without a stop of that process |
| ProtocolExtremes.DeleteDefeated | pkg/process/process.go:86-92 | a run in which only the readiness goroutine is pending: its write of Running comes between the unregister goroutine's poll and its verdict, the delete ends, and the process stays listed |
| Manager.Process.ClaimStop | pkg/process/process.go:150-171 | a stop is claimed exactly from Starting or Running; a kill is due exactly where it is not and the first claim is more than 60000 ms old; the log is closed here exactly where the process ended on its own; state and deletion time, and the protocol's claim, accordingly |
| Manager.Process.Finish | pkg/process/process.go:66-84 | the run goroutine writes Error or Stopped, as the protocol's step does |
| Manager.Process.BecomeRunning | pkg/process/process.go:89-105 | the readiness goroutine writes Running whatever the state was, as the protocol's step does |
| Manager.Manager.AllocatePorts | pkg/process/process_manager.go:407-419 | refused exactly when the count is negative, or positive and both searches of the bitmap fail; 0-0 for no ports, otherwise exactly the count of contiguous ports, which were free and are not any more |
| Manager.Manager.ReleasePorts | pkg/process/process_manager.go:421-426 | gives back exactly the range, and nothing when it lies outside the manager's range or is 0-0 |
| Manager.Manager.AllocateProcessPorts | pkg/process/process_manager.go:578-599 | it fails exactly when there are more port arguments than ports or the bitmap refuses, and then changes neither bitmap nor arguments; success takes the range out of the bitmap and appends the arguments with their ports |
| Manager.Manager.AppendPortArgs | pkg/process/process_manager.go:589-596 | the error exit inside the loop, which would lose the ports just allocated, is never taken |
| Manager.Manager.ReleaseProcessPorts | pkg/process/process_manager.go:601-606 | the bitmap afterwards is the one the protocol's release gives |
| Manager.Manager.RegisterProcess | pkg/process/process_manager.go:260-277 | table, bitmap and process afterwards are those of the protocol's step; it succeeds exactly when the name is free and the ports can be had |
| Manager.Manager.InitProcessReplace | pkg/process/process_manager.go:561-576 | the same for the admission of a replacement; the process to replace is the one the table holds |
| Manager.Manager.RemoveProcess | pkg/process/process_manager.go:302-311 | the same for the removal, which happens only if the table still holds this UUID |
| Manager.Manager.CommitReplace | pkg/process/process_manager.go:537-554 | the same for the commit; it fails exactly when the table holds a process that is not the captured one |
| Bitmap.Bitmap.FindAt | vendor/github.com/longhorn/go-common-libs/bitmap/bitmap.go:38-70 | the loop computes the scan that skips the element which ends a block too short; what is found is a run of free ports |
| Bitmap.BlocksAreMaximal | vendor/github.com/longhorn/go-common-libs/bitmap/bitmap.go:38-70 | the blocks of a set are non-empty, cover it, and are separated by something missing |
| Bitmap.SearchFails | vendor/github.com/longhorn/go-common-libs/bitmap/bitmap.go:38-70 | the scan fails exactly when every block is shorter than asked, or of just that length but reached without its first element, which happens unless it is the first block or follows a single element that was itself skipped |
| Bitmap.SearchPlace | vendor/github.com/longhorn/go-common-libs/bitmap/bitmap.go:38-70 | where the scan succeeds it finds the first block that serves, at its beginning or one past it where the first element was skipped |
| Bitmap.SearchMisses | vendor/github.com/longhorn/go-common-libs/bitmap/bitmap.go:38-70 | a failing scan rules out runs of count + 1, and misses a run of count exactly when no block serves and one has that very length |
| Bitmap.ExactFitMissed | vendor/github.com/longhorn/go-common-libs/bitmap/bitmap.go:38-70 | with 0, 2 and 3 free a search for two fails |
| Bitmap.ScanFinds | vendor/github.com/longhorn/go-common-libs/bitmap/bitmap.go:38-70 | what the scan finds is a run of count |
| Bitmap.Bitmap.AllocateRange | vendor/github.com/longhorn/go-common-libs/bitmap/bitmap.go:72-94 | a failure changes nothing and happens exactly when both scans fail; a success takes out exactly the contiguous free range it returns, which is where the scan from the last place, or else the one from the bottom, finds it, and the next search begins after it |
| Bitmap.Bitmap.ReleaseRange | vendor/github.com/longhorn/go-common-libs/bitmap/bitmap.go:96-114 | puts back exactly the range, and refuses ranges that are not inside the bitmap |
| Names.VolumeNameRecovered | pkg/util/util.go:180-185 | the volume name v comes back from v-a-b for every v and all dash-free a and b |
| Names.PanicsOnlyWithoutDash | pkg/util/util.go:180-185 | the slice expression panics exactly on names without a dash, hence never on an engine's name |
| Names.PieceShape | pkg/process/process_manager.go:594 | a port argument contributes its comma-separated parts with the port at the end of the last one |
| Names.PieceOfArgument | pkg/process/process_manager.go:590-595 | the appended arguments are, in order and without gaps, the pieces of argument i with port first + i, and none without arguments |
| Names.PortArgumentsFit | pkg/process/process_manager.go:580-593 | with no more arguments than ports, the ports of the arguments are distinct and inside the range |
| Locking.NobodyHolds | pkg/process/process_manager.go:37-40 | in a state where nobody can move, nobody holds a lock: by induction down the lock order |
| Locking.NeverStuck | pkg/process/process_manager.go:103-125 | while a call or goroutine has something left to do, or the monitor is part-way through a round, somebody can move |
| Locking.StepKeepsService | pkg/process/process_manager.go:103-125 | every move keeps the discipline and the two daemons; a free lock goes to any reader or writer that asks, in either order |
| Locking.StepKeepsExclusion | pkg/process/process.go:51-53 | a lock that is held for writing is held by nobody else, after every move, whoever of the waiting readers and writers gets in first |
| Locking.MayAcquireExactly | pkg/process/process.go:51-53 | a free lock is refused to nobody: whoever comes to acquire it may have it exactly where exclusion survives |
| LockPaths.CreateClean | pkg/process/process_manager.go:184-233 | every path of ProcessCreate takes locks in order and holds none while it sends |
| LockPaths.DeleteClean | pkg/process/process_manager.go:238-258 | the same of ProcessDelete |
| LockPaths.UnregisterClean | pkg/process/process_manager.go:288-315 | the same of the unregister goroutine |
| LockPaths.ReplaceClean | pkg/process/process_manager.go:449-559 | the same of ProcessReplace, on each of its endings |
| LockPaths.StopperClean | pkg/process/process.go:187-218 | the same of the stop goroutine |
| LockPaths.GoroutinesClean | pkg/process/process.go:65-107 | the same of the run and readiness goroutines |
| LockPaths.ScansClean | pkg/process/process_manager.go:147-180 | the same of the condition check, which locks processes under the manager's lock and notifies after releasing it |
| LockPaths.GetClean | pkg/process/process_manager.go:318-334 | the same of the lookup and of ProcessGet |
| LockPaths.ManagerPathsClean | pkg/process/process_manager.go:182-559 | the same of every path of every call and goroutine |
| LockPaths.SendUnderManagerLockSticks | pkg/process/process_test.go:186-196 | any path that notifies the monitor with the manager's lock held can stick for ever: at once if it holds it alone, and if it shares it as soon as somebody waits to write |
| LockPaths.OldReplaceGetsStuck | pkg/process/process_test.go:186-196 | the deadlock that the comment tells of, as an instance |
| LockProgress.StepWork | pkg/process/process_manager.go:103-125 | every move but an arrival uses up work, the monitor's and the stream's rounds included |
| LockProgress.EveryCallFinishes | pkg/process/process_manager.go:182-559 | over whole runs, in which a reader may or may not get in before a writer that is about to ask: no deadlock and no livelock; the number of moves is bounded by what arrived, and when nothing is sure to move, even if every writer already waits ahead of the readers, every call and goroutine has finished |
| LockSteps.CallsFollowPaths | pkg/process/process_manager.go:182-559 | over any run of the protocol, the lock and channel operations of each call and goroutine, however interleaved, begin one of its paths, and are one, up to the read that makes the answer, when it has ended |
| LockSteps.PathsAreListed | pkg/process/process_manager.go:182-559 | those paths are among the ones proved disciplined |
| LockSteps.TableAndBitmapAreLocked | pkg/process/process_manager.go:260-277 | every step that changes the process table takes the manager's lock for writing, and every step that changes the bitmap takes the bitmap's |
| LockSteps.ProcessIsLocked | pkg/process/process.go:194-199 | every step that changes a process's state, deletion time or command takes that process's lock for writing, except the stop goroutine's write of Stopped |
| Bits.AndNegation | package/instance-manager:68-70 | for every positive mask, mask & -mask in two's complement is the lowest set bit alone |
| Bits.BitAnd | package/instance-manager:68-69 | bitwise and, on integers of any sign, is conjunction at every bit |
| Bits.BitOr | package/start-spdk-tgt:57-59 | bitwise or is disjunction at every bit |
| Bits.AndLow | package/start-spdk-tgt:82-83 | m & (2^k - 1) is the remainder modulo 2^k |
| Bits.SameBits | package/start-spdk-tgt:46-59 | integers with the same bits are equal, so a mask is its set of CPUs |
| Bits.LowestIsLeast | package/instance-manager:54-72 | Lowest is a set bit and no lower bit is set |
| CpuMask.OnlineCpuMask | package/start-spdk-tgt:43-63 | the mask is positive and has bit i exactly when some part of the list covers i; the error exit is taken exactly on a malformed or empty list |
| CpuMask.ReadMask | package/instance-manager:54-66 | the mask is what the bracketed list or the hexadecimal text denotes; failure means that it denotes nothing |
| CpuMask.SplitSpdkCpumask | package/instance-manager:54-72 | the main core is the mask's least CPU, the poller mask is exactly the other CPUs, and it is empty exactly when the mask is a power of two |
| CpuMask.SplitParts | package/instance-manager:68-70 | the same of the two expressions mask & -mask and mask & ~low |
| CpuMask.MaskOfIsUnique | package/start-spdk-tgt:46-59 | a list of spans has one mask |
| CpuReaders.ReadersCompared | package/instance-manager:58-66 | for any text without brackets: a list that the bracket reader accepts the other reads alike exactly if every part is closed, and refuses otherwise; a list that the online reader accepts the bracket reader reads alike exactly if no part is blank, and refuses otherwise |
| CpuReaders.SameMaskWhereBothRead | package/start-spdk-tgt:46-59 | where neither script refuses a list they compute the same mask |
| CpuMask.ReadersAgree | package/instance-manager:58-66 | in particular both read the same spans from every list of ids and ordered ranges as the kernel prints it |
| CpuMask.ReadersDiffer | package/instance-manager:58-66 | and differ on every descending and every open range |
| CpuMask.HexRoundTrip | package/start-spdk-tgt:62-67 | 0x-prefixed hexadecimal reads back, in base 16 and in base 0 |
| CpuSelect.CollectIds | package/start-spdk-tgt:453-492 | from the words of the cpuset, the two early-exit loops give the first n CPUs of the flattened cpuset, and fail exactly when a malformed word comes before n CPUs are found; of a well-formed cpuset no CPU is picked before or without one that is named earlier, or lower in the same token |
| CpuSelect.AppendStride | package/start-spdk-tgt:480-486 | the stride loop appends the stride's ids in ascending order up to the limit |
| CpuSelect.StridedMembers | package/start-spdk-tgt:480-486 | a stride lists lo, lo + step, ... up to hi, and nothing else |
| CpuSelect.StridedAscends | package/start-spdk-tgt:480-486 | it lists them in strictly ascending order |
| CpuSelect.FlattenMembers | package/start-spdk-tgt:455-492 | the flattened cpuset has exactly the CPUs its tokens list |
| CpuSelect.MaskOfIds | package/start-spdk-tgt:494-501 | the mask's bits are exactly the collected ids |
| CpuSelect.SelectCpuMask | package/start-spdk-tgt:434-503 | from the text: on a well-formed cpuset the selection succeeds, its bits are CPUs of the cpuset, and where no CPU is named twice there are min(n, total) of them; they are the first that the cpuset names, so where its tokens ascend every CPU of the mask is below every CPU of the cpuset outside it |
| CpuSelect.KernelTextReads | package/start-spdk-tgt:455-471 | every cpuset of ids, ranges and strides is cut into words and fields as it was printed |
| CpuSelect.ShellReadings | package/start-spdk-tgt:469-488 | shell arithmetic on the fields: empty is zero, a leading zero is octal, 0x is hexadecimal |
| CpuSelect.WordThen | package/start-spdk-tgt:455 | words end at commas, blanks, tabs and line ends |
| CpuSelect.LateErrorUnnoticed | package/start-spdk-tgt:455-479 | a malformed token after the CPUs that are needed is not noticed, and is fatal when one more CPU is asked for |
| Affinity.GroupsRoundTrip | package/start-spdk-tgt:80-84 | the 32-bit groups, highest first, read back to the mask they were made from, for every mask |
| Affinity.FormatAffinityMask | package/start-spdk-tgt:73-86 | the text the kernel reads as comma-separated hexadecimal groups denotes the mask, for every non-negative integer; every group of a mask other than zero has eight digits |
| Affinity.HighGroupFirst | package/start-spdk-tgt:84 | of two groups the kernel takes the first for the high 32 bits |
| Affinity.AffinityExcluding | package/start-spdk-tgt:147-164 | for any two texts: what is written denotes exactly the online CPUs outside the SPDK mask; it is refused exactly on a bad online mask or when no CPU is left; it is empty where Python cannot read the SPDK mask |
| Affinity.AffinityOfAll | package/start-spdk-tgt:130-138 | what a clear writes denotes the online CPUs; it is refused exactly on a bad online mask |
| Affinity.PlaceWork | package/instance-manager:220-234 | on one 0x mask the two scripts place work apart: interrupts, main core and pollers share no CPU |
| Affinity.UnprefixedReadings | package/start-spdk-tgt:153-157 | of a mask without 0x the two scripts read the same number exactly where it is a single decimal digit or zero; otherwise the base-16 reading is larger, or the only one, except for octal numerals, which only the other reads |
| Affinity.UnprefixedMaskDiffers | package/start-spdk-tgt:153-157 | for instance 10 is read as 16 and as 10 |
| Isolation.Host.WriteEach | package/start-spdk-tgt:110-123 | the per-entry loop writes exactly the entries that accept, and nothing else |
| Isolation.Host.Apply | package/start-spdk-tgt:92-126 | success means the mechanism's files exist and the default or global entry and the accepting entry of every IRQ, workqueue or receive queue on the host hold the mask; at any crash point only such entries were touched |
| Isolation.Host.Clear | package/start-spdk-tgt:130-141 | success means that the default or global entry and the accepting entry of every IRQ, workqueue or receive queue denote the online CPUs, and that the mechanism's files exist; a missing workqueue file counts as nothing to do |
| Isolation.Host.ClearCpuIsolation | package/start-spdk-tgt:377-383 | every mechanism is attempted: one that fails keeps no other from being restored |
| Isolation.Host.Reconcile | package/start-spdk-tgt:389-401 | the marker goes only after every mechanism was restored; a failure keeps it |
| Isolation.Host.Set | package/start-spdk-tgt:144-167 | success means that the mechanism's files exist and that the default or global entry and the accepting entry of every IRQ, workqueue or receive queue denote the online CPUs outside the SPDK mask |
| Isolation.Host.ApplyCpuIsolation | package/start-spdk-tgt:358-369 | success means that of every enabled mechanism, and a later mechanism does not undo an earlier one |
| Isolation.Host.Persist | package/start-spdk-tgt:405-429 | nothing is restricted before the marker is in place, at every crash point |
| Isolation.Host.Run | package/start-spdk-tgt:568-580 | one run, however it ends, leaves nothing newly restricted without a marker; past reconcile, what is still restricted is exactly what the repair did not reach if its own marker was there, and all of it if not; a started run has every entry of every enabled mechanism on the online CPUs outside the SPDK mask |
| Isolation.Host.Runs | package/start-spdk-tgt:358-429 | over any sequence of runs, flags and crash points, on a host that may differ each time: if every repair was complete, a restricted entry implies a marker, and with one control path every run past reconcile starts with none; every repair is complete where later runs reach what earlier ones could |
| Isolation.RepairComplete | package/start-spdk-tgt:389-401 | a repair is complete exactly when the repairing run reaches every restricted entry |
| Isolation.HiddenFileLeavesRestriction | package/start-spdk-tgt:222-226 | it is not where the global workqueue file has disappeared in between |
| Broadcaster.Broadcaster.Subscribe | pkg/util/broadcaster/broadcaster.go:16-37 | a new open channel is subscribed; the stream loop is started exactly if none is running |
| Broadcaster.Broadcaster.Unsub | pkg/util/broadcaster/broadcaster.go:39-50 | the channel is closed if it is still subscribed, and never a second time |
| Broadcaster.Broadcaster.StreamItem | pkg/util/broadcaster/broadcaster.go:65-74 | every subscriber is offered the item once, in any order of visiting: with fewer than 100 items waiting it gets it behind them, with 100 it misses it and will be unsubscribed; nobody else is sent anything |
| Broadcaster.Broadcaster.StreamEnd | pkg/util/broadcaster/broadcaster.go:77-82 | every subscriber is closed and the broadcaster is not running any more |
| Broadcaster.Broadcaster.Receive | pkg/util/broadcaster/broadcaster.go:26-37 | a subscriber takes the oldest item it was sent and has not yet received |
| Broadcaster.OfferedInOrder | pkg/util/broadcaster/broadcaster.go:67-72 | an offer keeps the subscriber's items an in-order, duplicate-free part of what was broadcast since it joined |
| Broadcaster.ContiguousUnlessDropped | pkg/util/broadcaster/broadcaster.go:63-75 | what a subscriber received and has buffered is exactly the contiguous segment broadcast while it was subscribed if and only if its buffer was never full |
| Broadcaster.Play | pkg/util/broadcaster/broadcaster.go:16-83 | the same at the end of every run, with channels subscribed exactly while open and running set exactly while one stream loop is active |
| NameOrder.OneAscendingList | pkg/proxy/backup.go:351-354 | a set of names has one sorted list, so sorting removes the map's order |
| NameOrder.BelowIsLexicographic | pkg/proxy/snapshot.go:448 | the order compares the first characters in which two names differ, and puts a name before its extensions |
| NameOrder.Sort | pkg/proxy/snapshot.go:448 | the result is in ascending order and has the same names |
| CloneStatus.Aggregate | pkg/proxy/snapshot.go:389-459 | for any enumeration: all collected states, else one empty entry at the least reachable name, else an error |
| CloneStatus.OrderIrrelevantIffNoClash | pkg/proxy/snapshot.go:389-445 | the response is the same for every enumeration if and only if replicas at one address agree |
| CloneStatus.ResponseMeaning | pkg/proxy/snapshot.go:389-459 | with distinct addresses the response has exactly the replicas that report a state, each under its tcp:// address with what it reports |
| CloneStatus.TcpInjective | pkg/types/types.go:63-69 | prefixing keeps addresses apart |
| BackupStatus.FindReplicaAddresses | pkg/proxy/backup.go:349-368 | for any enumeration, the non-empty addresses of exactly the RW replicas in the order of their names |
| BackupStatus.CandidatesCanonical | pkg/proxy/backup.go:349-368 | there is one such list |
| BackupStatus.ProbeReplicas | pkg/proxy/backup.go:322-347 | the first usable status whatever failed before, else the first error other than NotFound, else the last NotFound, else no error |
| BackupStatus.ProbeUnique | pkg/proxy/backup.go:322-347 | that determines the outcome |
| BackupStatus.SnapshotBackupStatus | pkg/proxy/backup.go:254-316 | each error exit is taken exactly on its condition, NoReplica and the reported probe error included; a response comes from the direct call or from the first candidate that answers, has each field of that status in its place, and an address that is the status's own, else the requested or the answering one, and never empty |
| BackupStatus.RecoveryCanonical | pkg/proxy/backup.go:270-292 | the recovery does not depend on the order of the replica map |
| Text.ParseShow | pkg/process/process_manager.go:594 | decimal and hexadecimal numerals read back |
| Text.CaseDoesNotMatter | package/start-spdk-tgt:133 | upper-case hexadecimal digits read as lower-case ones, in any mixture |
| Text.JoinSplit | pkg/util/util.go:180-185 | joining what was split gives the string back, and no part contains the separator |
| Text.SplitJoin | package/start-spdk-tgt:84 | splitting what was joined gives the parts back |
| Text.ParsePad | package/start-spdk-tgt:82 | zero-padded hexadecimal groups read back |

## Left out

- ProtocolDelete.DeleteCompletes: assumes that the unregister goroutine does not give its verdict while a claimed stop of the process is settling, which takes that stop at most six turns, or while its run goroutine still has one of its three turns to take; otherwise the goroutine gives up after its 600 polls, by design.
- Isolation.Host.Runs: within a run an entry accepts every write or none.
- CpuSelect.SelectCpuMask: reading the cgroup file, and shell arithmetic on anything but empty strings and numerals, are not modelled.
- Affinity.UnprefixedReadings: numerals without sign, underscore or surrounding blanks, which Python's int would also accept.
- CpuReaders.ReadersCompared: blanks are space, tab, newline and carriage return; Python strips more.
- LockProgress.EveryCallFinishes: a polling loop is a path with a chosen number of polls, and the manager's context is never cancelled.
- Locking.StepKeepsExclusion: the lock of each log writer and of each command's output are leaves that no path holds while it takes another lock; only the command's is modelled.
- CloneStatus.Aggregate: each replica's answer is given beforehand; connections, timeouts and the int32 conversion of the progress are not modelled.
- int32 ports and counts are unbounded integers.
- Launching commands, signals and reaping are steps with a chosen outcome; log contents, error messages and the conditions map are not part of this model.
- ProcessLog and StreamLog: their channels belong to the log writer, which is not part of this model.
- Mount-point data, SHA-256 naming and the engine-name pattern are external; of the condition check only the locking is modelled.
- gRPC servers and clients, TLS, health probes, the command line, SPDK, engine and backup store calls: their answers are parameters where a modelled function needs them.
- Watch loops, environment handling, RPC converters, startup JSON, log rotation, liveness and prestop scripts.
