# Proofs about proc-compose

proc-compose is a process supervisor. It starts services and tasks in dependency
order, keeps each in a process group of its own, records every group on disk so that
a later command can clean up after a crash, keeps a rotating journal that readers
page through, and answers comparisons between two runs. This project models those
parts in Dafny and proves what they promise.

`dafny verify dfyconfig.toml` checks everything.

## What is modelled

**The kernel** (`Kernel.dfy`, `World.dfy`). A process table with four events: fork or
spawn, exit, reap. A process has an identity that is never reused, beside the numbers
the kernel hands out. What is assumed of the kernel:

- process ID reuse (POSIX.1-2017, XBD section 4.14): no new process takes a number that
  an unreaped process holds as its pid or its process group;
- pid and start time together are unique within one boot;
- a pidfd names one process, and signal 0 through it succeeds only while that process
  is unreaped;
- one walk of `/proc` sees one instant;
- a group gains members only by fork from a live member, and no process leaves its
  group (`setsid`, `setpgid` by a descendant are outside the model);
- the supervisor performs the only reap of what it launched.

A call may be refused for a reason of its own, such as a denied permission. Refusals are
noted in the state (`denies`, `faults`, `refusals`, `failures`), so what a method must do
is stated as what it does unless it was refused.

`World` is what one command sees: an arbitrary history of the table, a clock, and
system calls that let any time pass and then observe or act at one instant. What a
method promises there holds for every interleaving with forks, exits, reaps and reuse.

**Recovery after a crash** (`Recovery.dfy`, `Takeover.dfy`). A verdict of empty or
terminated is true from then on; signals reach only proven members of a recorded
group; a group once found empty is never touched again. With the superset rule below
this gives takeover safety: whenever the next command accepts the record of a crashed
run, nothing that run launched is alive.

**Launch, shutdown and the crash record** (`Authority.dfy`, `ProcessGroup.dfy`,
`ExitWatch.dfy`, `Record.dfy`, `Supervision.dfy`, `Safety.dfy`, `Runs.dfy`).
`Supervision` is a state machine with one step per critical section of the runner and
per event of the table; timers may fire whenever their guard allows. A crash is the end
of a step sequence, so what holds of every reachable state holds at every crash.
`ProcessGroup` and `Record` are the classes behind two of its parts, proved against the
functions it uses; `ExitWatch` is the choice a worker makes when its command ends.

**Readiness and startup order** (`Readiness.dfy`, `Startup.dfy`, `Graph.dfy`).
`Readiness` is a process's sequence of readiness cycles; `Startup` runs any number of
workers over them, with late probes, restarts, stops and handoffs; `Graph` validates
dependencies and yields the ranking that deadlock freedom rests on.

**The journal** (`LogRotate.dfy`, `Snapshot.dfy`, `Query.dfy`, `Utf8.dfy`). Rotation
under failing system calls and crashes, pinning a coherent list of files while a
rotation runs, and bounded pages. UTF-8 is that of RFC 3629, section 4.

**Windows, captures, comparisons, sessions** (`Windows.dfy`, `LogRing.dfy`,
`Capture.dfy`, `Compare.dfy`, `Session.dfy`).

## Two promises the code does not keep

*A reader overlapping one successful rotation may accept a list that is no log at any
instant*, when that rotation starts displaced, that is, when an earlier failed rotation
left the open file under the newest copy's name or the staged name
(internal/logrotate/logrotate.go:129-134). A name then returns to the file it had
meant, and the reader's second look (internal/logs/query.go:256-268) cannot tell.
`Snapshot.LinearExactlyFromLivePath` proves, for every state a rotation can start from,
that readers are safe if and only if the open file is at the live path then. For every
other start `Snapshot.DisplacedDuplicates` and `Snapshot.DisplacedSkips` give a schedule
that reads the file twice or not at all.

*A signal may outlive the leader's reap* for a check or teardown process whose own
timer hands it off while its worker still runs (internal/runner/lifecycle.go:742-753).
`Runs.SignalBeforeReapExactly` proves, for every run and every launch that may be
signalled, that no continuation of the run signals it after its leader's reap if and
only if the launch is under the run's own handoff. For every other launch
`Runs.OwnTimerOutlivesLeader` gives the continuation, in which its number comes to name
another group.

## Model

| member | source | states |
|---|---|---|
| Kernel.ApplyKeepsValid | internal/runner/recover_unix.go:466-482 | every fork, spawn, exit and reap the reuse rule allows keeps pids, stamps and group numbers unambiguous |
| Kernel.NumberReachesOneGroup | internal/runner/lifecycle.go:850-864 | while a group's founder is unreaped, its number is held by the members of that group and by nobody else |
| Kernel.NoHolderNoMember | internal/runner/recover_unix.go:466-470 | finding no live holder of a group's number proves that group has no live member, whoever may hold the number later |
| Kernel.ReusedNumberNoMember | internal/runner/recover_unix.go:312-315 | another process holding the leader's pid proves the recorded group has no live member |
| Kernel.BehaviourEvolves | internal/runner/recover_unix.go:445-447 | over any stretch of any history identities keep their numbers, deaths are final, and an empty group never refills |
| World.World.PidfdOpen | internal/runner/recover_unix.go:258-269 | an opened pidfd names a process that held the pid at that instant |
| World.World.PidfdAlive | internal/runner/recover_unix.go:276-279 | signal 0 through a pidfd succeeds only while its process is unreaped |
| World.World.KillGroup | internal/runner/processgroup_unix.go:86-97 | a group signal reaches every unreaped holder of the number at one instant, and no other process |
| World.World.MemberPIDs | internal/runner/recover_unix.go:349-353 | a membership walk lists every live holder of the number at one instant |
| Recovery.HostVerdict | internal/runner/recover_unix.go:125-145 | empty is concluded for a whole record exactly from two different known boot ids, and a record is read on exactly in the same pid and time namespaces, through a procfs of one's own, and on Linux in the same known boot |
| Recovery.ReadDescribesPidfd | internal/runner/recover_unix.go:270-279 | a procfs read between opening a pidfd and finding its process unreaped described that very process |
| Recovery.BracketedScan | internal/runner/recover_unix.go:280-292 | a process found in the group between two checks of its unreaped leader is a member of the recorded group |
| Recovery.GroupProvenEmpty | internal/runner/recover_unix.go:483-513 | empty is answered only if at some instant of the call no live process held the number; any other answer means that somebody held it, and unknown membership that a call was refused or the members went away meanwhile |
| Recovery.PinMembers | internal/runner/recover_unix.go:349-372 | each pin's process held the pin's pid in the group at an instant of the call, is not this process, and was not pinned already; unless a call is refused no member that runs throughout is missed |
| Recovery.Recovery.LeaderIdentity | internal/runner/recover_unix.go:303-320 | no reason means the holder of the pid is the recorded leader and leads the group; a reused pid proves the recorded group gone |
| Recovery.Recovery.Classify | internal/runner/recover_unix.go:217-297 | a group is either proven ours with every pin a proven member, or finished with a verdict that is true; a group alive throughout is claimed with all its members pinned unless a call is refused, one whose number nobody holds is empty, a pending or invalid number is unknown, and an assessment never claims |
| Recovery.Recovery.FinishUnproven | internal/runner/recover_unix.go:325-343 | a group that cannot be proven ours ends empty only if it is, and with nothing pinned |
| Recovery.Recovery.OpenLeader | internal/runner/recover_unix.go:258-279 | the leader is kept open exactly when its pidfd's process was proven the recorded leader, and that of a group alive throughout always is |
| Recovery.Recovery.Repin | internal/runner/recover_unix.go:378-397 | dropping dead pins and adding members forked meanwhile keeps every pin a proven member, and misses no member that runs throughout a group alive throughout |
| Recovery.Recovery.SignalPins | internal/runner/recover_unix.go:401-414 | the signal is sent through every pin and through nothing else, arrives wherever the process is unreaped and no call is refused, and is recorded exactly when it arrived somewhere |
| Recovery.Recovery.Conclude | internal/runner/recover_unix.go:417-443 | terminated is exactly what was signalled and is empty, empty what is so without a signal, and unknown what somebody still holds; a group found empty is not probed again |
| Recovery.AwaitEmpty | internal/runner/recover_unix.go:448-464 | polling goes on for the given number of rounds unless every group is found empty before, keeps every claim, and leaves groups already found empty alone |
| Recovery.RecoverGroups | internal/runner/recover_unix.go:70-119 | for every interleaving: empty and terminated verdicts are true for ever after, each signal reached a proven member of a recorded group, and a group found empty is not touched again. Every claimed group not found empty before has SIGKILL sent through each pin, after SIGTERM through each first pin if there is a grace period; unless a call is refused, each member that runs throughout a group alive throughout gets them, and a group nobody holds is answered empty. An assessment sends nothing |
| Recovery.SignalAll | internal/runner/recover_unix.go:89-118 | asking, waiting, killing and deciding leave out no claimed group and no pin, and no SIGTERM follows a SIGKILL |
| Recovery.AssessCrashedRun | internal/runner/recover_unix.go:187-213 | acceptance means no live daemon, a readable record, and every recorded group cleared; a record of another boot, or one whose numbers nobody holds, is accepted; nothing is signalled |
| ProcessGroup.UnixProcessGroup.Signal | internal/runner/processgroup_unix.go:86-97 | a signal is sent exactly with authority, and what is sent goes to holders of the number at one instant |
| ProcessGroup.UnixProcessGroup.State | internal/runner/processgroup_unix.go:124-164 | empty only after a walk that found nobody running or for a closed handle; owned only if somebody held the number, unavailable only if a call was refused; a failed walk leaves no stale members |
| ProcessGroup.UnixProcessGroup.Seal | internal/runner/processgroup_unix.go:112-122 | authority is gone before the observation and never returns, and an empty observation is true of the number sealed |
| ProcessGroup.UnixProcessGroup.WaitWhileLive | internal/runner/exitwatch.go:124-135 | true only when the group was observed empty, false only after every look, the last of which saw somebody unless a call was refused |
| ProcessGroup.UnixProcessGroup.Terminate | internal/runner/exitwatch_unix.go:63-75 | with authority the group gets SIGTERM and then SIGKILL, either left out only because it was found empty by then, and nothing else; if the leader is reserved until the call returns every signal reached the leader's own group |
| ExitWatch.SignalledWhileReserved | internal/runner/lifecycle.go:652-886 | in every run, observed or not, no reap begins before the worker is done with signals, and each signal of its group is sent while the leader is unreaped |
| ExitWatch.FailedObservation | internal/runner/lifecycle.go:652-694 | a launch whose exit cannot be observed has its group ended before authority goes exactly when the platform merely lacks an observer; after a failed wait nothing is sent |
| ExitWatch.SignalsUnlessWaitFailed | internal/runner/exitwatch.go:88-100 | a group comes to be signalled in some run exactly when setting up the observation did not fail on a wait |
| ExitWatch.UnsignalledOnlyWhenLost | internal/runner/exitwatch_unix.go:34-46 | an observed command's group is left unsignalled exactly when the observer could not establish its leader |
| Record.PidFile.WriteGroups | internal/daemon/daemon.go:136-150 | the groups are replaced whole and only in a readable file that still names its owner; otherwise nothing changes, with each error exactly when due |
| Record.RunRecord.Begin | internal/runner/lifecycle.go:1088-1100 | a run records exactly if it is to and an empty list could be written |
| Record.RunRecord.Pending | internal/runner/lifecycle.go:1119-1138 | an entry is on disk before its launch may start unless the system refuses, a failed write leaves the record as it was, and only a lost file turns recording off |
| Record.RunRecord.FillIn | internal/runner/lifecycle.go:1143-1159 | the launch's entries take its leader, on disk as well unless the write is refused; then the disk keeps them pending |
| Record.RunRecord.Drop | internal/runner/lifecycle.go:1179-1196 | exactly the launch's entries go, on disk as well unless the write is refused, and nothing is written when there are none |
| Supervision.Without | internal/runner/lifecycle.go:1179-1196 | the record without a launch holds exactly the other launches' entries |
| Supervision.Fill | internal/runner/lifecycle.go:1143-1159 | filling in a launch changes its entries and no other |
| Supervision.DropRecord | internal/runner/lifecycle.go:1179-1196 | a dropped launch has no entry left and every other its own; the disk follows when the write succeeds and is as it was otherwise |
| Safety.WithdrawKeeps | internal/runner/lifecycle.go:853-865 | withdrawing authority before the reap keeps the invariant |
| Safety.StartReapKeeps | internal/runner/lifecycle.go:873-875 | beginning the reap after withdrawal keeps signal before reap |
| Safety.HandoffKeeps | internal/runner/lifecycle.go:742-753 | a handoff keeps the invariant, because the run's own comes only after every group was sealed |
| Safety.BeginLaunchKeeps | internal/runner/lifecycle.go:550-575 | admission and the pending entry keep the invariant, whatever the write does |
| Safety.StartOkKeeps | internal/runner/lifecycle.go:576-615 | a started process founds its own group and keeps every other launch's identity |
| Safety.StartFailedKeeps | internal/runner/lifecycle.go:576-600 | a failed start drops its entry and loses no other |
| Safety.TrackKeeps | internal/runner/lifecycle.go:1010-1033 | registering a launch in place of an earlier one of its name settles that one, and the entry filled in is true |
| Safety.VerifyKeeps | internal/runner/lifecycle.go:897-931 | verifying after the reap drops only groups observed empty and reports the rest |
| Safety.SealFinishKeeps | internal/runner/lifecycle.go:1324-1358 | sealing accounts for each group as empty or as a problem |
| Safety.KernelKeeps | internal/runner/lifecycle.go:850-864 | no event of the process table breaks the invariant, given the runner's only reap |
| Safety.VerdictKeeps | internal/runner/runner.go:457-501 | teardown opens only beside groups proven empty |
| Safety.CloseTeardownKeeps | internal/runner/teardown.go:91-143 | closing teardown seals its groups and admits nothing more |
| Safety.SweptIsProven | internal/runner/lifecycle.go:1471-1477 | a swept run without a problem has proven every launch empty |
| Runs.StepKeeps | internal/runner/lifecycle.go:512-931 | every step of the protocol keeps the invariant and the table's rules |
| Runs.RunKeeps | internal/runner/runner.go:276-501 | the invariant holds at every moment of every run |
| Runs.NilVerdictMeansEmpty | internal/runner/lifecycle.go:1471-1477 | a run that ended by shutdown with no problem leaves no live member in any group it launched |
| Runs.ProblemHasCause | internal/runner/lifecycle.go:1324-1358 | a run reports a problem only after a group that could not be seen to be empty, descendants that had left one, or an unreaped leader |
| Runs.CleanEnd | internal/runner/runner.go:447-501 | a launch can end clean: reaped, proven empty, gone from the record on disk, with no problem to report and teardown open |
| Runs.HandoffEnd | internal/runner/runner.go:440-455 | a worker that does not end in time is released only after its group was sealed, and a group not seen to be empty makes the run report a problem |
| Runs.TeardownRunsAlone | internal/runner/teardown.go:91-143 | during teardown after a sweep every group launched before it is empty |
| Runs.TeardownOpensAfterEmptiness | internal/runner/teardown.go:149-191 | a teardown process starts or runs only with admission closed to all others and, after a sweep, beside empty groups |
| Runs.ClosedAdmissionStays | internal/runner/runner.go:542-553 | once admission closed, only teardown processes ever start |
| Runs.AdmissionCloses | internal/runner/lifecycle.go:550-559 | closed admission refuses every launch but a teardown process's |
| Runs.SignalsReachOwnGroup | internal/runner/lifecycle.go:850-886 | whenever a group signal is permitted its leader is unreaped, so it reaches exactly that launch's group; for every launch but one handed off by its own timer |
| Runs.SignalBeforeReapExactly | internal/runner/lifecycle.go:742-753 | however a run goes on, a launch that may be signalled is never signalled after its leader's reap, if and only if it is under the run's own handoff |
| Runs.OwnTimerOutlivesLeader | internal/runner/check.go:140-152 | every check or teardown launch that may be signalled has a continuation in which it still may while its leader is reaped, and, if the leader was unreaped, its number names another group |
| Runs.OwnTimersOccur | internal/runner/teardown.go:149-191 | both kinds of launch come to that point |
| Runs.DiskIsSuperset | internal/runner/lifecycle.go:1069-1206 | at every moment, with any failed writes, each launch not proven empty has a disk entry that is pending or carries its true number and start time |
| Runs.GoneLeavesDisk | internal/runner/lifecycle.go:1179-1196 | a launch that did not start, or whose group was found empty, has no entry on disk after the write that follows |
| Runs.ProvenStaysEmpty | internal/runner/lifecycle.go:1172-1177 | what the record may have dropped has no live member |
| Takeover.ClearedRecordMeansEmpty | internal/runner/processgroup.go:413-422 | for every crash point of a recording run, a record cleared entry by entry means no launched group is alive, on this boot or after a reboot |
| Takeover.CrashWhileStartingRefuses | internal/runner/recover_unix.go:219-222 | a crash while a launch was starting is cleared by a reboot only |
| Takeover.AcquireRun | cmd/proc-compose/helpers.go:107-117 | acceptance by the next command implies every group of the crashed run is dead; a record with nobody left is accepted and a refused one stays on disk |
| Readiness.SettledOnce | internal/runner/state.go:378-387 | the first outcome published on a cycle is its only one |
| Readiness.ResetReleases | internal/runner/state.go:358-376 | a reset leaves no waiter without an outcome and installs a fresh unsettled cycle |
| Readiness.FirstVerdictWins | internal/runner/state.go:161-231 | of one incarnation's readiness success and failure the first recorded shuts out the other |
| Readiness.ReadyCycle.Publish | internal/runner/state.go:113-123 | a cycle's channel is closed once, after its outcome is written |
| Readiness.ProcState.MarkReadyFor | internal/runner/state.go:146-182 | the current cycle is settled exactly by the running current generation that has not failed, if it was unsettled, with the outcome the probe brought |
| Readiness.ProcState.FailReadinessFor | internal/runner/state.go:222-231 | failure is recorded exactly for the running current generation that is not ready |
| Readiness.ProcState.ResetReady | internal/runner/state.go:370-376 | the old cycle is settled before the new one is current, and every cycle a waiter may hold is kept |
| Readiness.ProcState.CurrentReadyCycle | internal/runner/state.go:390-397 | a waiter takes the current cycle |
| Readiness.ProcState.OutcomeOf | internal/runner/state.go:401-408 | the cycle a waiter took keeps telling it that cycle's own outcome, however often the process was reset since |
| Readiness.ProcState.Finish | internal/runner/state.go:424-462 | the disposition and the current cycle's verdict change together |
| Startup.AfterExit | internal/runner/lifecycle.go:209-338 | a stop goes before a requested restart; a process restarts by itself exactly when its policy wants that for such an exit, its limit allows it, and a failed tree was confirmed gone; it gives up exactly when only the limit is in the way, and fails for any other failure |
| Startup.RestartLeadsOn | internal/runner/lifecycle.go:209-378 | a restart, at once or after its backoff, can always go on to the next generation, under a fresh unsettled cycle |
| Startup.ReadinessFailureCounts | internal/runner/lifecycle.go:251-263 | after a readiness failure a clean exit is treated as a failure |
| Startup.StopDecides | internal/runner/lifecycle.go:353-396 | once the run is stopped an exit or an interrupted backoff ends as stopped, whatever the exit was, and settles nothing by itself |
| Startup.UnhealthyCounts | internal/runner/lifecycle.go:251-263 | an incarnation found unhealthy counts as failed, whether it became ready or not |
| Startup.CancelledIsSilent | internal/runner/state.go:161-231 | probes of an incarnation whose context was cancelled change nothing |
| Startup.RerunWaitsAgain | internal/runner/runner.go:398-408 | a service that ended waits for its dependencies anew when it is restarted, under a fresh cycle |
| Startup.WaiterEnds | internal/runner/lifecycle.go:59-138 | a waiter that is cancelled, or woken by an end, ends as its dependency did |
| Startup.TakenIsSound | internal/runner/lifecycle.go:59-62 | taking the current cycle of the next dependency is sound |
| Startup.WokenIsSound | internal/runner/lifecycle.go:76-80 | a waiter passes a dependency only on a satisfied cycle of it |
| Startup.RelookedIsSound | internal/runner/lifecycle.go:80-88 | a waiter whose cycle ended without a verdict always finds a later one |
| Startup.BegunIsSound | internal/runner/lifecycle.go:143-172 | a new generation runs under the current cycle, with its dependencies all satisfied |
| Startup.MarkedIsSound | internal/runner/state.go:161-182 | a probe can satisfy only the running incarnation's own cycle, and not after that incarnation failed |
| Startup.ReadinessFailedIsSound | internal/runner/state.go:218-231 | a readiness failure excludes a success of the same generation |
| Startup.DecidedIsSound | internal/runner/lifecycle.go:209-338 | every branch after an exit leaves a fresh cycle or is about to settle the current one |
| Startup.TaskDecidedIsSound | internal/runner/lifecycle.go:385-411 | a task satisfies its dependents only by exiting 0 uncancelled |
| Startup.PublishedIsSound | internal/runner/state.go:424-462 | a finished process leaves its current cycle settled |
| Startup.StepKeeps | internal/runner/lifecycle.go:104-412 | every step of every worker keeps the invariant, with probes of any generation arriving at any time |
| Startup.RunKeeps | internal/runner/runner.go:364-410 | the invariant holds in every reachable state, for any number of processes |
| Startup.OutcomesStay | internal/runner/state.go:378-387 | over whole runs no cycle is lost and no published outcome changes |
| Startup.SatisfiedByOwnIncarnation | internal/runner/state.go:161-231 | a satisfied service cycle was satisfied by an incarnation that began under that cycle and never failed readiness |
| Startup.StartedAfterDependencies | internal/runner/lifecycle.go:108-141 | a process that started has, along every dependency path, only processes that started and were satisfied before, tasks among them having exited 0 |
| Startup.BlockedOnUnfinished | internal/runner/lifecycle.go:59-92 | a blocked worker waits for the current cycle of a process that has not finished |
| Startup.NoDeadlock | internal/runner/lifecycle.go:59-138 | over a ranked graph every reachable state with an unfinished process has one that is not blocked and can step |
| Startup.StackComesUp | internal/runner/lifecycle.go:104-412 | of an acyclic configuration every selection has a run in which each service becomes ready and each task exits 0 |
| Startup.LoadAndSelect | internal/config/config.go:566-682 | for every configuration that loads and every selection of it, some run brings the whole stack up, and every run of the stack starts in dependency order along every path and never reaches a deadlock |
| Graph.DetectCycles | internal/config/config.go:626-682 | no cycle is reported exactly when the graph is acyclic, with a ranking as witness; otherwise the report is a real closed dependency path |
| Graph.CyclePath | internal/config/config.go:640-652 | the reported path runs forward from the repeated name back to it |
| Graph.Detector.Visit | internal/config/config.go:635-665 | a visit returns a closed path or finishes the name after all its dependencies, with the path as before |
| Graph.RankedIsAcyclic | internal/config/config.go:625-682 | a ranking below every dependent rules out every closed path |
| Graph.CheckDependencies | internal/config/config.go:383-402 | loading accepts the dependencies exactly when each names another configured process that runs with the stack and no path is closed; each error is true of the configuration |
| Graph.Selection.Include | internal/config/config.go:568-581 | a name is added with its eligible dependencies and nothing that is not implied |
| Graph.SelectedNames | internal/config/config.go:566-597 | the selection is the least dependency-closed set of the filter, each name once and in name order |
| Graph.Planner.Depth | internal/config/explain.go:662-673 | the memoised recursion ends and gives every name a level one above its highest dependency |
| Graph.LevelsAgree | internal/config/explain.go:662-673 | the graph alone determines the levels |
| Graph.Plan | internal/config/explain.go:650-682 | the levels partition the closure, none is empty, each name sits at its own level, and each level is in name order |
| LogRotate.MoveKeeps | internal/logrotate/logrotate.go:112-159 | a file moved over free slots keeps its place among the retained contents |
| LogRotate.GrowAppends | internal/logrotate/logrotate.go:94-95 | bytes appended to the youngest file are appended to the log |
| LogRotate.Disk.Rename | internal/logrotate/logrotate.go:139-151 | no rename is asked for onto a file that is there, and each keeps the log sound |
| LogRotate.Disk.RemoveOldest | internal/logrotate/logrotate.go:177-181 | what is dropped is the oldest copy, whole |
| LogRotate.New | internal/logrotate/logrotate.go:56-79 | opening after any crash restores a staged file, loses no byte, counts the size right, and fails only if a call does |
| LogRotate.Writer.Write | internal/logrotate/logrotate.go:90-103 | the bytes written are the log's new end whatever rotation does; below its limit the file is only appended to, from its limit on it is rotated away unless a call fails; a copy is dropped only when every slot is taken, and one at most until a new live file is installed |
| LogRotate.Writer.Rotate | internal/logrotate/logrotate.go:128-159 | a rotation installs a new live file with the old one as newest copy, or, only if a call fails, leaves the writer on the same file, still in the log |
| LogRotate.Writer.Shift | internal/logrotate/logrotate.go:168-189 | the newest slot is freed unless a call fails, dropping a copy only when every slot is taken |
| LogRotate.Writer.Rollback | internal/logrotate/logrotate.go:195-201 | the open file is back at the live path or remembered where it stayed, and is in the log |
| LogRotate.Writer.Recreate | internal/logrotate/logrotate.go:206-213 | a removed live file is replaced by a fresh one, or nothing changes |
| LogRotate.Lifetime | internal/logrotate/logrotate.go:56-222 | over any writes, failing calls, crashes at any system call and restarts the retained contents are everything ever written less whole dropped copies, oldest first, and nothing is dropped before the live file has reached its limit |
| Snapshot.AcceptedIsInstant | internal/logs/query.go:206-283 | an accepted list is the list of files at the instant of its last open, none twice and none missing |
| Snapshot.OneRotationIsSteady | internal/logrotate/logrotate.go:136-158 | one rotation that starts at the live path never brings a name back to an earlier meaning |
| Snapshot.EveryStart | internal/logrotate/logrotate.go:128-159 | whenever the writer of a log of three copies comes to rotate, its rotation is one of those considered |
| Snapshot.LinearExactlyFromLivePath | internal/logs/query.go:206-283 | a rotation lets readers accept only lists of an instant, whatever the schedule, if and only if it starts with the open file at the live path |
| Snapshot.DisplacedDuplicates | internal/logs/query.go:256-268 | in every rotation that starts from the newest copy's name a reader can accept the open file twice |
| Snapshot.DisplacedSkips | internal/logs/query.go:256-268 | in every one that starts from the staged name, whatever copies are there, a reader can accept a list without it |
| Snapshot.CheckedIsLog | internal/logs/query.go:226-268 | the pinned handles, read up to the sizes seen, yield the whole log of one instant |
| Snapshot.SnapshotFiles | internal/logs/query.go:218-283 | whatever one rotation from the live path does during the call, what is returned is the whole log of an instant inside the call, and the journal is not reported missing; over any other steady history missing means there was an instant with no file at all; the call gives up only for a call that fails or after five attempts each spoilt by a change of names |
| Query.FittedIsLongest | internal/logs/query.go:316-356 | a fitted event keeps its identity and the longest well-formed line that fits the budget |
| Query.Fit | internal/logs/query.go:318-356 | the binary search finds that line, and fails exactly when the metadata alone is too large |
| Query.ForwardTakes | internal/logs/query.go:99-176 | a page takes the next matching events within both limits and says there is more exactly when a matching event is left |
| Query.ForwardWithin | internal/logs/query.go:150-176 | whatever the journal holds, a page keeps within both limits and has more only when it is full |
| Query.FollowIsMatching | internal/logs/query.go:120-170 | following the cursor ends and yields exactly the matching events ahead of it, in order, each once |
| Query.FollowFromStart | internal/logs/query.go:84-87 | from the start that is every matching event of the journal |
| Query.SlideIn | internal/logs/query.go:131-146 | the tail loop keeps the longest suffix of matching events that both limits allow |
| Query.Scan | internal/logs/query.go:99-176 | the nested scan answers the forward page, the tail page, the first error or a lost cursor, exactly as specified |
| Query.Query | internal/logs/query.go:64-184 | limits and cursors are refused exactly when invalid; a page holds no more events and bytes than asked for, or 50 and 65536 when that is left open, counts its bytes right and has more only when it is full; any answer, failures included, is that of the scan, and a lost cursor gets the newest page of the journal instead, marked as a gap |
| Query.EventIsCursor | internal/logs/query.go:75-83 | the ID of an event, its run, a colon and its printed sequence number, is a cursor exactly if the number has 64 bits |
| Windows.Slide | internal/ipc/ringbuf.go:39-48 | appending and dropping the oldest until the rest fits gives the longest suffix that fits |
| LogRing.LogRing.Push | internal/ipc/ringbuf.go:23-49 | an entry within the budget is taken in and the ring is again the longest suffix within capacity and budget; an oversize one changes nothing |
| LogRing.LogRing.Snapshot | internal/ipc/ringbuf.go:52-62 | the copy is the newest accepted entries, oldest first, as many as count and bytes allow |
| Utf8.CutBeforeStart | internal/runner/check.go:239-240 | cutting well-formed text before a byte that starts a character splits none |
| Utf8.CutInsideCharacter | internal/runner/check.go:256-259 | cutting before a continuation byte always splits one |
| Capture.CappedBuffer.WriteLine | internal/runner/check.go:248-265 | the capture stays a prefix within its limit, the whole stream unless truncated, cut at the last place in the limit that is not inside a character, and of well-formed output the longest prefix that splits no character |
| Compare.Consistent | internal/verify/compare.go:284-298 | a side is consistent exactly when all its repetitions share one outcome |
| Compare.ProvenDifference | internal/verify/compare.go:243-266 | true exactly when one field differs between every baseline and every candidate repetition |
| Compare.FalseIsTrue | internal/verify/compare.go:237-282 | a proven difference holds of the true outputs, however their captures were cut |
| Compare.MayAgreeExactly | internal/verify/compare.go:258-282 | two attempts could come from outputs that agree in a field exactly when they are not told apart there and neither holds its whole stream while the other captured more; only in that last case is the judgement more careful than it has to be |
| Compare.BuffersCapture | internal/verify/result.go:421-433 | the bounded buffers of the two streams under one flag, and a result emptied for size, are captures of what was written to the buffers |
| Compare.Observe | internal/verify/compare.go:195-213 | each differing field is listed once, as in the first pair that differs in it, and no other |
| Compare.DefaultIsTrue | internal/verify/compare.go:227-234 | consistent, complete sides without a proven difference agree in every pair, so the default verdict is never false |
| Compare.Judge | internal/verify/compare.go:194-235 | false exactly for a proven difference; true exactly if all repetitions of both sides share one outcome, nothing was cut and no difference is proven; inconsistent exactly if two repetitions of one side differ |
| Session.Plan.Allocate | internal/session/session.go:427-454 | a port is newly bound and leased, the first from the preferred one on that was not denied, or all 128 were and nothing changes |
| Session.Plan.Hold | internal/session/session.go:462-481 | the exact port is leased and bound, or the error tells own use, another lease and another program apart, each of which happened |
| Session.Plan.ReleasePorts | internal/session/session.go:490-499 | exactly the held ports the process uses are closed, and no lease is |
| Session.Plan.Close | internal/session/session.go:502-513 | nothing stays bound or leased |
| Session.LeaseResources | internal/session/session.go:84-104 | exactly the resources before the first failure are leased, each identity once and in order; the failure is one that does not expand or a new one whose lease cannot be had |
| Session.AssignPorts | internal/session/session.go:149-173 | assigned ports are pairwise distinct, bound and leased, pinned ones at their own number, any other at the first number that was not denied; assigning fails only for refusals |
| Session.Acquire | internal/session/session.go:49-179 | either the instance, all resources, the merge port and all named ports are owned, or nothing is, and then because the request lacks something or the machine refused it |
| Session.Plan.Resolve | internal/session/session.go:183-268 | what a process was found to use is added, what was noted before is never lost, and a failure changes nothing |
| Session.PlansAreDisjoint | internal/session/session.go:369-394 | two live plans share no lease and no listener, and never assign the same port, even after they released it |
| Session.Sessions | internal/session/session.go:49-513 | over any number of calls of any number of sessions, acquired, resolved, releasing and closed in any order beside other programs, live ones stay apart |

## Left out

- Windows: Job Objects and the Win32 file calls of the platform files.
- Runs.SignalsReachOwnGroup: does not cover a check or teardown process handed off by its own timer, where the property is false (Runs.SignalBeforeReapExactly).
- Supervision.Fill: signals are permissions of a launch's handle in that state machine, not steps of it; what one delivers is ProcessGroup's part.
- Runs.NilVerdictMeansEmpty: a run that ends without cancellation is not swept, and a group handed off by then may still live; the theorem is about runs that were swept.
- Takeover.AcquireRun: the PID file read is the one the crashed run wrote; a file another program edited meanwhile is outside it.
- Safety.TrackKeeps: on Unix tracking a started command cannot fail, so that error path of exec is not a step.
- Recovery.AwaitEmpty: deadlines are a number of polls; no duration is proved.
- ProcessGroup.UnixProcessGroup.Terminate: the grace and settle times are numbers of polls as well.
- Startup.NoDeadlock: takes the ranking from Graph.DetectCycles; a process that runs for ever is not a deadlock.
- Startup.StepKeeps: restart policy and limits are chosen anew at every exit, which covers a hot reload of them.
- LogRotate.Disk.Lstat: fails only for an absent file; an error of another kind would make New and shift misjudge a slot.
- LogRotate.Disk.RemovedByOther: of what another process may do to the files only the removal of the live one is modelled.
- Snapshot.SnapshotFiles: a failed rotation, or more than one rotation, overlapping the call is not covered.
- Query.Query: JSON, the match predicate and the record size are parameters (the size must not grow when a line is cut between characters); text search and time filters are not spelled out.
- Query.FollowIsMatching: the journal does not change between the pages.
- Compare.Judge: the alternating runs of Compare and the checks that make a comparison comparable are not modelled.
- Session.Sessions: calls of live sessions follow one another; other programs act at every system call inside them, other live sessions do not.
- ExitWatch.SignallingEstablished: its answer for an unsupported observation is in the model as it is in the code, where no build reaches it; the comment about it (internal/runner/exitwatch_unix.go:38-43) describes that dead branch.
- Session.Acquire: template expansion yields a resource identity or an error, and which process uses which port is a parameter.
- Process groups left by `setsid`, processes hidden by hidepid, thread-group leaders that are zombies with live threads, and walks of `/proc` that span time.
- The shutdown acknowledgement barrier, the restart and reload commands, metrics, the health server and the wire transport.
- Readiness and health probes themselves, and who answered them.
- The order in which recovery results are printed, the terminal interface, doctor and bootstrap.
- Configuration parsing, port and merge validation, schema generation, and the refusal of an unknown name in a plan's filter.
