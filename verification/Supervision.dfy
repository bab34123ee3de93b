/**
 The launch, shutdown and record protocol of a run (internal/runner/lifecycle.go,
 runner.go, teardown.go) as a state machine.

 Each step is one critical section of the runner, or one event of the process
 table. Timers are steps that may happen at any moment their guard allows. A
 crash of the daemon is the end of the step sequence: everything proved about
 every reachable state holds at every crash point.
 */
module Supervision {
  import opened Wrappers
  import opened Kernel
  import opened Authority
  import opened World

  // Managed covers services, tasks and cmd probes, which run under the run's own
  // cleanup handoff. Checks and teardown processes have a handoff of their own,
  // closed by a timer.
  datatype Kind = Managed | Check | Teardown

  datatype Stage =
    | Pending      // recorded, not started; the launcher holds lifecycleMu
    | Refused      // the start failed: there is no process
    | Started      // started, not yet registered; the launcher holds lifecycleMu
    | Running      // registered; its worker may still signal it
    | Withdrawing  // its worker has withdrawn authority and starts no signal
    | Reaping      // its worker waits for the reap
    | Returned     // its worker verified the group and returned
    | HandedOff    // its worker returned without verifying; the sweep reports it

  // `leader` is the process the launch started, `reap` that a wait for it was
  // begun, `proven` that the group was observed empty.
  datatype Launch = Launch(name: string, kind: Kind, stage: Stage, leader: nat, group: Authority, reap: bool,
                           proven: bool)
  {
    predicate HasLeader() { stage !in {Pending, Refused} }

    // Started or about to be: a crash may leave its processes behind.
    predicate Launched() { stage != Refused }

    predicate Over() { stage in {Refused, Returned, HandedOff} }
  }

  // One entry of the crash record. On disk an entry is its group alone.
  datatype Entry = Entry(launch: nat, group: Group)

  datatype Phase =
    | Serving        // workers run
    | HandingOff     // the handoff timer fired: the sweep seals every group
    | Draining       // the handoff is closed, workers return
    | FinalSweep     // workers returned, the sweep seals what is registered
    | Swept          // the verdict is about to be taken
    | InTeardown | TeardownSweep | Done

  // The crash record: the runner's list and what the PID file holds.
  datatype Book = Book(on: bool, records: seq<Entry>, disk: seq<Entry>)

  datatype Mode = Mode(hasHandoff: bool, cancelled: bool, stopping: bool, sealing: bool, handoffClosed: bool,
                       phase: Phase, swept: bool)
  {
    predicate TeardownOpen() { phase.InTeardown? }

    predicate Sweeping() { phase in {HandingOff, FinalSweep, TeardownSweep} }
  }

  // `registry` maps a name to its tracked launch, `sweep` holds the launches taken
  // from it for sealing, and `starting` is the launch whose start holds
  // lifecycleMu.
  datatype Sys = Sys(table: Table, launches: seq<Launch>, registry: map<string, nat>, sweep: set<nat>,
                     starting: Option<nat>, mode: Mode, problem: bool, book: Book)

  datatype Write = Wrote | Failed | Lost

  datatype Step =
    | Kernel(event: Event)
    | BeginLaunch(name: string, kind: Kind, write: Write)
    | StartOk(pid: int, start: nat)
    | StartFailed(wrote: bool)
    | Track(statOk: bool, prevEmpty: bool, wrotePrev: bool, wrote: bool)
    | Withdraw(l: nat)
    | StartReap(l: nat)
    | Handoff(l: nat)
    | Verify(l: nat, empty: bool, escaped: bool, wrote: bool)
    | Cancel
    | CloseAdmission
    | HandoffTimer
    | SealWithdraw(l: nat)
    | SealFinish(l: nat, empty: bool, wrote: bool)
    | CloseHandoff
    | WorkersDone
    | SweepDone
    | Verdict(unreaped: bool, configured: bool)
    | CloseTeardown
    | TeardownDone(unreaped: bool)

  // ── the crash record ────────────────────────────────────────────────────────

  function Without(es: seq<Entry>, l: nat): (r: seq<Entry>)
    ensures forall e :: e in r <==> e in es && e.launch != l
  {
    if es == [] then [] else (if es[0].launch == l then [] else [es[0]]) + Without(es[1..], l)
  }

  lemma WithoutKeeps(es: seq<Entry>, l: nat)
    ensures (forall e | e in es :: e.launch != l) ==> Without(es, l) == es
  {
  }

  function Fill(es: seq<Entry>, l: nat, g: Group): (r: seq<Entry>)
    ensures forall e | e in r :: if e.launch == l then e.group == g else e in es
    ensures forall e | e in es :: if e.launch == l then Entry(l, g) in r else e in r
  {
    if es == [] then [] else [if es[0].launch == l then Entry(l, g) else es[0]] + Fill(es[1..], l, g)
  }

  // Replaces the whole record on disk, or leaves it as it was.
  function Persist(b: Book, wrote: bool): Book
  {
    if wrote then b.(disk := b.records) else b
  }

  // Removes the entries of a launch; nothing is written when there are none.
  function DropRecord(b: Book, l: nat, wrote: bool): (r: Book)
    ensures !b.on ==> r == b
    ensures b.on ==> r.on && forall e :: e in r.records <==> e in b.records && e.launch != l
    ensures b.on ==>
      if wrote && (exists e :: e in b.records && e.launch == l) then forall e :: e in r.disk <==> e in r.records
      else r.disk == b.disk
  {
    var kept := Without(b.records, l);
    assert (exists e :: e in b.records && e.launch == l) ==> kept != b.records;
    WithoutKeeps(b.records, l);
    if !b.on || kept == b.records then b else Persist(b.(records := kept), wrote)
  }

  function FillRecord(b: Book, l: nat, g: Group, wrote: bool): (r: Book)
    ensures !b.on ==> r == b
    ensures b.on ==> r.on && forall e | e in r.records :: if e.launch == l then e.group == g else e in b.records
    ensures b.on ==> forall e | e in b.records :: if e.launch == l then Entry(l, g) in r.records else e in r.records
    ensures b.on ==> r.disk == if wrote then r.records else b.disk
  {
    if !b.on then b else Persist(b.(records := Fill(b.records, l, g)), wrote)
  }

  // ── steps ───────────────────────────────────────────────────────────────────

  ghost predicate Exists(s: Sys, l: nat) { l < |s.launches| }

  ghost predicate AllOver(s: Sys)
  {
    forall l | 0 <= l < |s.launches| :: s.launches[l].Over()
  }

  // The runner performs the only reap of a process it launched.
  ghost predicate ReapAllowed(s: Sys, i: nat)
  {
    forall l | 0 <= l < |s.launches| && s.launches[l].HasLeader() && s.launches[l].leader == i :: s.launches[l].reap
  }

  ghost predicate Unreaped(s: Sys)
  {
    exists l | 0 <= l < |s.launches| && s.launches[l].HasLeader() ::
      s.launches[l].reap && s.launches[l].leader < |s.table.procs| && s.table.procs[s.launches[l].leader].Unreaped()
  }

  // Executions of one name are strictly sequential; checks and teardown
  // processes run once under a name of their own.
  ghost predicate NameFree(s: Sys, name: string, kind: Kind)
  {
    forall l | 0 <= l < |s.launches| && s.launches[l].name == name ::
      kind.Managed? && s.launches[l].kind.Managed? && s.launches[l].stage in {Refused, Returned}
  }

  ghost predicate Admitted(s: Sys, kind: Kind)
  {
    && !(s.mode.stopping && !(kind.Teardown? && s.mode.TeardownOpen()))
    && (kind.Managed? ==> !s.mode.cancelled)
    && (if kind.Teardown? then s.mode.phase.InTeardown? else s.mode.phase in {Serving, HandingOff, Draining})
  }

  ghost predicate HandoffVisible(s: Sys, l: nat)
    requires Exists(s, l)
  {
    s.launches[l].kind.Managed? ==> s.mode.handoffClosed
  }

  // The last sweep accounts for this launch, not its worker.
  predicate TakenOver(s: Sys, l: nat)
    requires l < |s.launches|
  {
    (!s.launches[l].kind.Managed? || s.mode.hasHandoff) && s.mode.sealing && !s.launches[l].kind.Teardown?
  }

  ghost predicate Can(s: Sys, step: Step)
  {
    match step
    case Kernel(e) => Enabled(s.table, e) && (e.Reap? ==> ReapAllowed(s, e.who))
    case BeginLaunch(name, kind, write) => s.starting.None? && Admitted(s, kind) && NameFree(s, name, kind)
    case StartOk(pid, start) =>
      && s.starting.Some? && Exists(s, s.starting.value) && s.launches[s.starting.value].stage.Pending?
      && Enabled(s.table, Spawn(pid, start))
    case StartFailed(_) =>
      s.starting.Some? && Exists(s, s.starting.value) && s.launches[s.starting.value].stage.Pending?
    case Track(_, prevEmpty, _, _) =>
      && s.starting.Some? && Exists(s, s.starting.value) && s.launches[s.starting.value].stage.Started?
      && s.launches[s.starting.value].leader < |s.table.procs|
      && (s.launches[s.starting.value].name in s.registry ==>
            var prev := s.registry[s.launches[s.starting.value].name];
            Exists(s, prev) && (prevEmpty ==> MayReportEmpty(s.launches[prev].group, s.table)))
    case Withdraw(l) => Exists(s, l) && s.launches[l].stage.Running?
    case StartReap(l) => Exists(s, l) && s.launches[l].stage.Withdrawing?
    case Handoff(l) => Exists(s, l) && s.launches[l].stage in {Running, Reaping} && HandoffVisible(s, l)
    case Verify(l, empty, _, _) =>
      && Exists(s, l) && s.starting.None? && s.launches[l].stage.Reaping?
      && s.launches[l].leader < |s.table.procs| && !s.table.procs[s.launches[l].leader].Unreaped()
      && (empty ==> MayReportEmpty(s.launches[l].group, s.table))
    case Cancel => true
    case CloseAdmission => s.starting.None?
    case HandoffTimer => s.mode.phase.Serving? && s.mode.hasHandoff && s.mode.cancelled && s.starting.None?
    case SealWithdraw(l) => s.mode.Sweeping() && Exists(s, l) && l in s.sweep
    case SealFinish(l, empty, _) =>
      && s.mode.Sweeping() && Exists(s, l) && l in s.sweep && s.launches[l].group.withdrawn
      && (empty ==> MayReportEmpty(s.launches[l].group, s.table))
    case CloseHandoff => s.mode.phase.HandingOff? && s.sweep == {}
    case WorkersDone => s.mode.phase in {Serving, Draining} && s.starting.None? && AllOver(s)
    case SweepDone => s.mode.phase.FinalSweep? && s.sweep == {}
    case Verdict(unreaped, _) => s.mode.phase.Swept? && s.starting.None? && (Unreaped(s) ==> unreaped)
    case CloseTeardown => s.mode.phase.InTeardown? && s.starting.None? && AllOver(s)
    case TeardownDone(unreaped) => s.mode.phase.TeardownSweep? && s.sweep == {} && (Unreaped(s) ==> unreaped)
  }

  // Takes the registry for sealing; lifecycleMu is held.
  function TakeGroups(s: Sys, phase: Phase, swept: bool): Sys
  {
    s.(sweep := s.registry.Values, registry := map[],
       mode := s.mode.(stopping := true, sealing := true, phase := phase, swept := swept))
  }

  function Put(s: Sys, l: nat, x: Launch): Sys
    requires l < |s.launches|
  {
    s.(launches := s.launches[l := x])
  }

  // A launch whose handle was closed after one last observation of its group.
  function Closed(x: Launch, empty: bool): Launch
  {
    x.(group := x.group.Close(), proven := x.proven || empty)
  }

  // The bookkeeping of that observation: an empty group leaves the record, any
  // other is reported.
  function Settle(s: Sys, l: nat, empty: bool, wrote: bool): Sys
    requires l < |s.launches|
  {
    s.(launches := s.launches[l := Closed(s.launches[l], empty)],
       problem := s.problem || !empty,
       book := if empty then DropRecord(s.book, l, wrote) else s.book)
  }

  // The handle takes the leader's pid and replaces what the name registered.
  ghost function Tracked(s: Sys, l: nat): Sys
    requires l < |s.launches| && s.launches[l].leader < |s.table.procs|
  {
    var x := s.launches[l];
    s.(launches := s.launches[l := x.(stage := Running, group := Authority(s.table.procs[x.leader].pid, false))],
       registry := s.registry[x.name := l], starting := None)
  }

  // The entry of a started launch: its leader's pid, and its start time if read.
  ghost function LeaderEntry(t: Table, l: nat, x: Launch, statOk: bool): Entry
    requires x.leader < |t.procs|
  {
    Entry(l, Group(x.name, t.procs[x.leader].pid, if statOk then t.procs[x.leader].start else 0))
  }

  ghost function Do(s: Sys, step: Step): Sys
    requires Can(s, step)
  {
    match step
    case Kernel(e) => s.(table := Apply(s.table, e))
    case BeginLaunch(name, kind, write) =>
      var l := |s.launches|;
      var begun := s.(launches := s.launches + [Launch(name, kind, Pending, 0, Untracked, false, false)],
                      starting := Some(l));
      if !s.book.on then begun
      else if write.Wrote? then
        begun.(book := Persist(s.book.(records := s.book.records + [Entry(l, Group(name, 0, 0))]), true))
      else if write.Lost? then begun.(book := s.book.(on := false, records := []))
      else s
    case StartOk(pid, start) =>
      var l := s.starting.value;
      s.(launches := s.launches[l := s.launches[l].(stage := Started, leader := |s.table.procs|)],
         table := Apply(s.table, Spawn(pid, start)))
    case StartFailed(wrote) =>
      var l := s.starting.value;
      s.(launches := s.launches[l := s.launches[l].(stage := Refused)], starting := None,
         book := DropRecord(s.book, l, wrote))
    case Track(statOk, prevEmpty, wrotePrev, wrote) =>
      var l := s.starting.value;
      var name := s.launches[l].name;
      var tracked := Tracked(s, l);
      // The earlier launch of the name is observed once more and closed.
      var settled := if name in s.registry && s.registry[name] != l
                     then Settle(tracked, s.registry[name], prevEmpty, wrotePrev) else tracked;
      settled.(book := FillRecord(settled.book, l, LeaderEntry(s.table, l, s.launches[l], statOk).group, wrote))
    case Withdraw(l) =>
      Put(s, l, s.launches[l].(stage := Withdrawing, group := s.launches[l].group.Withdraw()))
    case StartReap(l) => Put(s, l, s.launches[l].(stage := Reaping, reap := true))
    case Handoff(l) => Put(s, l, s.launches[l].(stage := HandedOff, reap := true))
    case Verify(l, empty, escaped, wrote) =>
      if TakenOver(s, l) then Put(s, l, s.launches[l].(stage := HandedOff))
      else if !empty then Put(s, l, s.launches[l].(stage := Returned)).(problem := true)
      else
        var name := s.launches[l].name;
        Settle(Put(s, l, s.launches[l].(stage := Returned)), l, true, wrote)
        .(problem := s.problem || escaped,
          registry := if name in s.registry && s.registry[name] == l then s.registry - {name} else s.registry)
    case Cancel => s.(mode := s.mode.(cancelled := true))
    case CloseAdmission => s.(mode := s.mode.(stopping := true))
    case HandoffTimer => TakeGroups(s, HandingOff, true)
    case SealWithdraw(l) => Put(s, l, s.launches[l].(group := s.launches[l].group.Withdraw()))
    case SealFinish(l, empty, wrote) => Settle(s, l, empty, wrote).(sweep := s.sweep - {l})
    case CloseHandoff => s.(mode := s.mode.(handoffClosed := true, phase := Draining))
    case WorkersDone =>
      if s.mode.phase.Draining? || !s.mode.cancelled then s.(mode := s.mode.(phase := Swept))
      else TakeGroups(s, FinalSweep, true)
    case SweepDone => s.(mode := s.mode.(phase := Swept))
    case Verdict(unreaped, configured) =>
      var problem := s.problem || unreaped;
      s.(problem := problem,
         mode := s.mode.(stopping := s.mode.stopping || configured,
                         phase := if configured && !s.mode.handoffClosed && !problem then InTeardown else Done))
    case CloseTeardown => TakeGroups(s, TeardownSweep, s.mode.swept)
    case TeardownDone(unreaped) => s.(problem := s.problem || unreaped, mode := s.mode.(phase := Done))
  }

  ghost predicate Init(s: Sys)
  {
    && Valid(s.table) && s.launches == [] && s.registry == map[] && s.sweep == {} && s.starting.None?
    && !s.mode.stopping && !s.mode.sealing && !s.mode.handoffClosed && s.mode.phase.Serving? && !s.mode.swept
    && !s.problem && s.book.records == [] && s.book.disk == []
  }
}
