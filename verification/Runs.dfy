/**
 Whole runs of the supervisor: what holds at every moment of every run, whatever
 the interleaving of workers, timers, forced shutdown, the sweeps, failed record
 writes and the process table.
 */
module Runs {
  import opened Wrappers
  import opened Kernel
  import opened Authority
  import opened World
  import opened Supervision
  import opened Safety

  ghost predicate SysNext(s: Sys, s': Sys)
  {
    exists step :: Can(s, step) && s' == Do(s, step)
  }

  ghost predicate Run(run: seq<Sys>)
  {
    && run != [] && Init(run[0])
    && forall i | 0 <= i < |run| - 1 :: SysNext(run[i], run[i + 1])
  }

  // What no step undoes: closed admission, and the launches made so far.
  ghost predicate Grows(s: Sys, s': Sys)
  {
    && (s.mode.stopping ==> s'.mode.stopping) && |s.launches| <= |s'.launches|
    && (forall l | 0 <= l < |s.launches| :: s'.launches[l].kind == s.launches[l].kind)
    && (s.mode.stopping ==> forall l | |s.launches| <= l < |s'.launches| :: s'.launches[l].kind.Teardown?)
  }

  ghost predicate TableMoves(t: Table, t': Table)
  {
    t' == t || exists e :: Enabled(t, e) && t' == Apply(t, e)
  }

  lemma TrackGrows(s: Sys, statOk: bool, prevEmpty: bool, wrotePrev: bool, wrote: bool)
    requires Can(s, Track(statOk, prevEmpty, wrotePrev, wrote))
    ensures var s' := Do(s, Track(statOk, prevEmpty, wrotePrev, wrote)); Grows(s, s') && s'.table == s.table
  {
    hide MayReportEmpty, DropRecord, FillRecord;
  }

  lemma VerifyGrows(s: Sys, l: nat, empty: bool, escaped: bool, wrote: bool)
    requires Can(s, Verify(l, empty, escaped, wrote))
    ensures var s' := Do(s, Verify(l, empty, escaped, wrote)); Grows(s, s') && s'.table == s.table
  {
    hide MayReportEmpty, DropRecord;
  }

  lemma LaunchGrows(s: Sys, step: Step)
    requires step.BeginLaunch? || step.StartOk? || step.StartFailed?
    requires Can(s, step)
    ensures Grows(s, Do(s, step)) && TableMoves(s.table, Do(s, step).table)
  {
    hide Enabled, Apply, NameFree, DropRecord;
    if step.StartOk? { assert Enabled(s.table, Spawn(step.pid, step.start)); }
  }

  lemma SimpleStepGrows(s: Sys, step: Step)
    requires !step.Track? && !step.Verify? && !step.BeginLaunch? && !step.StartOk? && !step.StartFailed?
    requires Can(s, step)
    ensures Grows(s, Do(s, step)) && TableMoves(s.table, Do(s, step).table)
  {
    hide Enabled, Apply, MayReportEmpty, AllOver, Unreaped, DropRecord, ReapAllowed;
  }

  lemma StepGrows(s: Sys, step: Step)
    requires Can(s, step)
    ensures Grows(s, Do(s, step)) && TableMoves(s.table, Do(s, step).table)
  {
    hide Can, Do, Grows;
    match step
    case Track(statOk, prevEmpty, wrotePrev, wrote) => TrackGrows(s, statOk, prevEmpty, wrotePrev, wrote);
    case Verify(l, empty, escaped, wrote) => VerifyGrows(s, l, empty, escaped, wrote);
    case BeginLaunch(_, _, _) => LaunchGrows(s, step);
    case StartOk(_, _) => LaunchGrows(s, step);
    case StartFailed(_) => LaunchGrows(s, step);
    case _ => SimpleStepGrows(s, step);
  }

  lemma TableStep(t: Table, t': Table)
    requires Kernel.Valid(t) && TableMoves(t, t')
    ensures Kernel.Valid(t') && Evolves(t, t')
  {
    if t' != t {
      var e :| Enabled(t, e) && t' == Apply(t, e);
      hide Kernel.Valid, Evolves;
      ApplyKeepsValid(t, e);
      ApplyEvolves(t, e);
    }
  }

  lemma StepKeeps(s: Sys, step: Step)
    requires Kernel.Valid(s.table) && Inv(s) && Can(s, step)
    ensures Kernel.Valid(Do(s, step).table) && Inv(Do(s, step))
  {
    hide Kernel.Valid, Inv, Can, Do, Grows, TableMoves, Evolves;
    StepGrows(s, step);
    TableStep(s.table, Do(s, step).table);
    match step
    case Kernel(e) => KernelKeeps(s, e);
    case BeginLaunch(name, kind, write) => BeginLaunchKeeps(s, name, kind, write);
    case StartOk(pid, start) => StartOkKeeps(s, pid, start);
    case StartFailed(wrote) => StartFailedKeeps(s, wrote);
    case Track(statOk, prevEmpty, wrotePrev, wrote) => TrackKeeps(s, statOk, prevEmpty, wrotePrev, wrote);
    case Withdraw(l) => WithdrawKeeps(s, l);
    case StartReap(l) => StartReapKeeps(s, l);
    case Handoff(l) => HandoffKeeps(s, l);
    case Verify(l, empty, escaped, wrote) => VerifyKeeps(s, l, empty, escaped, wrote);
    case Cancel => CancelKeeps(s, step);
    case CloseAdmission => CancelKeeps(s, step);
    case HandoffTimer => HandoffTimerKeeps(s);
    case SealWithdraw(l) => SealWithdrawKeeps(s, l);
    case SealFinish(l, empty, wrote) => SealFinishKeeps(s, l, empty, wrote);
    case CloseHandoff => PhaseStepKeeps(s, step);
    case WorkersDone => WorkersDoneKeeps(s);
    case SweepDone => PhaseStepKeeps(s, step);
    case Verdict(unreaped, configured) => VerdictKeeps(s, unreaped, configured);
    case CloseTeardown => CloseTeardownKeeps(s);
    case TeardownDone(unreaped) => TeardownDoneKeeps(s, unreaped);
  }

  lemma {:induction false} RunKeeps(run: seq<Sys>, i: nat)
    requires Run(run) && i < |run|
    ensures Kernel.Valid(run[i].table) && Inv(run[i])
  {
    if i == 0 {
      InitInv(run[0]);
    } else {
      RunKeeps(run, i - 1);
      assert SysNext(run[i - 1], run[i]);
      hide Kernel.Valid, Inv, Can, Do;
      var step :| Can(run[i - 1], step) && run[i] == Do(run[i - 1], step);
      StepKeeps(run[i - 1], step);
    }
  }

  // ── shutdown ────────────────────────────────────────────────────────────────

  // A run that ended by shutdown and reports no problem left no live member in
  // any group it launched: services, tasks, probes, checks, teardown processes.
  lemma NilVerdictMeansEmpty(run: seq<Sys>, i: nat)
    requires Run(run) && i < |run|
    requires run[i].mode.swept && run[i].mode.phase in {Swept, Done} && !run[i].problem
    ensures forall l | 0 <= l < |run[i].launches| && run[i].launches[l].HasLeader() ::
      !LiveIn(run[i].table, run[i].launches[l].leader)
  {
    RunKeeps(run, i);
    SweptIsProven(run[i]);
  }

  // What makes a run report a problem: a group that could not be seen to be empty, one
  // whose descendants had left it, or a leader that was not reaped.
  ghost predicate Troubles(s: Sys, step: Step)
    requires Can(s, step)
  {
    match step
    case Track(_, prevEmpty, _, _) =>
      var name := s.launches[s.starting.value].name;
      name in s.registry && s.registry[name] != s.starting.value && !prevEmpty
    case Verify(l, empty, escaped, _) => !TakenOver(s, l) && (!empty || escaped)
    case SealFinish(_, empty, _) => !empty
    case Verdict(unreaped, _) => unreaped
    case TeardownDone(unreaped) => unreaped
    case _ => false
  }

  lemma ProblemNeedsTrouble(s: Sys, step: Step)
    requires Can(s, step)
    ensures Do(s, step).problem <==> s.problem || Troubles(s, step)
  {
    hide DropRecord, FillRecord, MayReportEmpty, Enabled, Apply, NameFree, ReapAllowed, AllOver, Unreaped;
  }

  ghost predicate TroubledAt(run: seq<Sys>, j: nat)
  {
    j + 1 < |run| && exists step :: Can(run[j], step) && run[j + 1] == Do(run[j], step) && Troubles(run[j], step)
  }

  // A run reports a problem exactly when there was one.
  lemma {:induction false} ProblemHasCause(run: seq<Sys>, i: nat)
    requires Run(run) && i < |run| && run[i].problem
    ensures exists j :: 0 <= j < i && TroubledAt(run, j)
  {
    hide Can, Do, Troubles;
    assert !run[0].problem;
    assert SysNext(run[i - 1], run[i]);
    var step :| Can(run[i - 1], step) && run[i] == Do(run[i - 1], step);
    ProblemNeedsTrouble(run[i - 1], step);
    if run[i - 1].problem {
      ProblemHasCause(run, i - 1);
    } else {
      assert TroubledAt(run, i - 1);
    }
  }

  // While teardown runs after a sweep, every group launched before it is empty.
  lemma TeardownRunsAlone(run: seq<Sys>, i: nat)
    requires Run(run) && i < |run| && run[i].mode.swept && run[i].mode.phase in {InTeardown, TeardownSweep}
    ensures forall l | 0 <= l < |run[i].launches| && run[i].launches[l].HasLeader()
                       && !run[i].launches[l].kind.Teardown? ::
      !LiveIn(run[i].table, run[i].launches[l].leader)
  {
    RunKeeps(run, i);
  }

  // Once admission is closed, only teardown processes ever start.
  lemma {:induction false} ClosedAdmissionStays(run: seq<Sys>, i: nat, j: nat)
    requires Run(run) && i <= j < |run| && run[i].mode.stopping
    ensures run[j].mode.stopping && |run[i].launches| <= |run[j].launches|
    ensures forall l | |run[i].launches| <= l < |run[j].launches| :: run[j].launches[l].kind.Teardown?
    decreases j
  {
    hide Can, Do, Init, TableMoves;
    if i < j {
      ClosedAdmissionStays(run, i, j - 1);
      assert SysNext(run[j - 1], run[j]);
      var step :| Can(run[j - 1], step) && run[j] == Do(run[j - 1], step);
      StepGrows(run[j - 1], step);
    }
  }

  // A teardown process that is starting or running has closed admission to
  // everything else, and after a sweep runs beside nothing but empty groups.
  lemma TeardownOpensAfterEmptiness(run: seq<Sys>, i: nat, l: nat)
    requires Run(run) && i < |run| && l < |run[i].launches|
    requires run[i].launches[l].kind.Teardown? && !run[i].launches[l].Over()
    ensures run[i].mode.stopping
    ensures run[i].mode.swept ==>
      forall m | 0 <= m < |run[i].launches| && run[i].launches[m].HasLeader() && !run[i].launches[m].kind.Teardown? ::
        !LiveIn(run[i].table, run[i].launches[m].leader)
  {
    RunKeeps(run, i);
    if run[i].mode.swept { TeardownRunsAlone(run, i); }
  }

  // Closing admission refuses every launch but a teardown process's.
  lemma AdmissionCloses(s: Sys, name: string, kind: Kind, write: Write)
    requires Can(s, CloseAdmission) && !kind.Teardown?
    ensures !Can(Do(s, CloseAdmission), BeginLaunch(name, kind, write))
  {
  }

  // ── signals ─────────────────────────────────────────────────────────────────

  // kill(-pgid) is permitted by the handle alone, whoever calls it and when. For
  // a launch under the run's own handoff, and for any other not handed off by a
  // timer of its own, its leader is unreaped whenever it is permitted, so the
  // signal reaches the processes of that launch's group and no others.
  lemma SignalsReachOwnGroup(run: seq<Sys>, i: nat, l: nat)
    requires Run(run) && i < |run| && l < |run[i].launches|
    requires run[i].launches[l].group.MaySignal()
    requires run[i].launches[l].kind.Managed? || !run[i].launches[l].stage.HandedOff?
    ensures var x, t := run[i].launches[l], run[i].table;
      && x.HasLeader() && x.leader < |t.procs| && t.procs[x.leader].Unreaped()
      && forall k | 0 <= k < |t.procs| && t.procs[k].Unreaped() ::
           t.procs[k].pgid == x.group.pgid <==> t.procs[k].group == x.leader
  {
    RunKeeps(run, i);
    var x, t := run[i].launches[l], run[i].table;
    assert StageRules(x) && Identity(t, x);
    forall k | 0 <= k < |t.procs| && t.procs[k].Unreaped()
      ensures t.procs[k].pgid == x.group.pgid <==> t.procs[k].group == x.leader
    {
      NumberReachesOneGroup(t, x.leader, k);
    }
  }

  // ── where signals outlive the leader ────────────────────────────────────────

  ghost function Last(run: seq<Sys>): Sys
    requires run != []
  {
    run[|run| - 1]
  }

  ghost predicate Extends(run: seq<Sys>, run': seq<Sys>)
  {
    Run(run') && run <= run'
  }

  // However the run goes on, whenever launch l may still be signalled its leader
  // is unreaped.
  ghost predicate NeverOutlived(run: seq<Sys>, l: nat)
  {
    forall run' | Extends(run, run') && l < |Last(run').launches| && Last(run').launches[l].group.MaySignal() ::
      var s := Last(run'); s.launches[l].leader < |s.table.procs| && s.table.procs[s.launches[l].leader].Unreaped()
  }

  lemma Extend(run: seq<Sys>, step: Step) returns (run': seq<Sys>)
    requires Run(run) && Can(Last(run), step)
    ensures Extends(run, run') && run' == run + [Do(Last(run), step)]
  {
    run' := run + [Do(Last(run), step)];
    hide Can, Do, Init;
    assert SysNext(run'[|run| - 1], run'[|run|]);
  }

  lemma Happens(run: seq<Sys>, e: Event) returns (run': seq<Sys>)
    requires Run(run) && Enabled(Last(run).table, e) && (e.Reap? ==> ReapAllowed(Last(run), e.who))
    ensures Extends(run, run') && Last(run') == Last(run).(table := Apply(Last(run).table, e))
  {
    hide Enabled, Apply, ReapAllowed, Run;
    run' := Extend(run, Step.Kernel(e));
  }

  // The table with process i reaped.
  ghost function Gone(t: Table, i: nat): Table
    requires i < |t.procs|
  {
    t.(procs := t.procs[i := t.procs[i].(status := Reaped)])
  }

  lemma Dies(run: seq<Sys>, i: nat) returns (run': seq<Sys>)
    requires Run(run) && i < |Last(run).table.procs| && ReapAllowed(Last(run), i)
    ensures Extends(run, run') && Last(run') == Last(run).(table := Gone(Last(run).table, i))
  {
    run' := run;
    if Last(run').table.procs[i].status == Live { run' := Happens(run', Exit(i)); }
    if Last(run').table.procs[i].status == Zombie { run' := Happens(run', Reap(i)); }
    assert Last(run').table.procs == Gone(Last(run).table, i).procs;
  }

  // The table after every member of the group below k but its leader was reaped.
  ghost predicate Drained(t: Table, t': Table, leader: nat, k: nat)
  {
    && t'.boot == t.boot && |t'.procs| == |t.procs|
    && forall i | 0 <= i < |t.procs| ::
         t'.procs[i] == if i < k && i != leader && t.procs[i].group == leader then t.procs[i].(status := Reaped)
                        else t.procs[i]
  }

  // Only leaders are kept from being reaped, and each leads a group of its own.
  lemma MemberMayBeReaped(run: seq<Sys>, leader: nat, i: nat)
    requires Run(run) && i < |Last(run).table.procs| && Last(run).table.procs[i].group == leader != i
    ensures ReapAllowed(Last(run), i)
  {
    RunKeeps(run, |run| - 1);
    assert forall l | 0 <= l < |Last(run).launches| :: Identity(Last(run).table, Last(run).launches[l]);
  }

  lemma LeaderMayBeReaped(run: seq<Sys>, l: nat)
    requires Run(run) && l < |Last(run).launches| && Last(run).launches[l].HasLeader() && Last(run).launches[l].reap
    ensures ReapAllowed(Last(run), Last(run).launches[l].leader)
  {
    RunKeeps(run, |run| - 1);
  }

  lemma LeaderFounds(run: seq<Sys>, l: nat)
    requires Run(run) && l < |Last(run).launches| && Last(run).launches[l].HasLeader()
    ensures var i, t := Last(run).launches[l].leader, Last(run).table;
      Kernel.Valid(t) && i < |t.procs| && t.procs[i].group == i
  {
    RunKeeps(run, |run| - 1);
    assert Identity(Last(run).table, Last(run).launches[l]);
  }

  lemma {:induction false} MembersDie(run: seq<Sys>, leader: nat, k: nat) returns (run': seq<Sys>)
    requires Run(run) && k <= |Last(run).table.procs|
    ensures Extends(run, run') && Last(run') == Last(run).(table := Last(run').table)
    ensures Drained(Last(run).table, Last(run').table, leader, k)
  {
    assert run != [];
    hide Run, ReapAllowed;
    run' := run;
    if k > 0 {
      run' := MembersDie(run, leader, k - 1);
      var i := k - 1;
      if i != leader && Last(run').table.procs[i].group == leader {
        MemberMayBeReaped(run', leader, i);
        run' := Dies(run', i);
      }
    }
  }

  lemma {:induction false} LatestStart(procs: seq<Proc>) returns (start: nat)
    ensures start > 0 && forall i | 0 <= i < |procs| :: procs[i].start < start
  {
    start := 1;
    if procs != [] {
      var before := LatestStart(procs[1..]);
      start := before + procs[0].start + 1;
      forall i | 0 <= i < |procs|
        ensures procs[i].start < start
      {
        assert i > 0 ==> procs[i] == procs[1..][i - 1];
      }
    }
  }

  // Nobody holds the number of a group whose members are all gone.
  lemma NumberIsFree(t: Table, t': Table, leader: nat)
    requires Kernel.Valid(t) && leader < |t.procs| && t.procs[leader].group == leader && t.procs[leader].Unreaped()
    requires Drained(t, t', leader, |t.procs|)
    ensures |t'.procs| == |t.procs| && t'.procs[leader] == t.procs[leader]
    ensures FreeNumber(Gone(t', leader), t.procs[leader].pid)
  {
    var u, n := Gone(t', leader), t.procs[leader].pid;
    forall i | 0 <= i < |u.procs| && u.procs[i].Unreaped()
      ensures u.procs[i].pid != n && u.procs[i].pgid != n
    {
      NumberReachesOneGroup(t, leader, i);
    }
  }

  // Its number names another group.
  ghost predicate NamesAnother(t: Table, n: int, leader: nat)
  {
    exists k | 0 <= k < |t.procs| :: t.procs[k].status == Live && t.procs[k].pgid == n && t.procs[k].group != leader
  }

  // A leader that may be reaped dies after its members.
  lemma GroupDies(run: seq<Sys>, l: nat) returns (run': seq<Sys>)
    requires Run(run) && l < |Last(run).launches|
    requires var x, t := Last(run).launches[l], Last(run).table;
      x.reap && x.HasLeader() && x.leader < |t.procs| && t.procs[x.leader].Unreaped()
    ensures Extends(run, run') && Last(run') == Last(run).(table := Last(run').table)
    ensures var x, t, t' := Last(run).launches[l], Last(run).table, Last(run').table;
      && |t'.procs| == |t.procs| && t'.procs[x.leader].status == Reaped && t.procs[x.leader].group == x.leader
      && FreeNumber(t', t.procs[x.leader].pid)
  {
    var x, t := Last(run).launches[l], Last(run).table;
    assert run != [];
    hide Run, ReapAllowed, Kernel.Valid, FreeNumber, Drained;
    LeaderFounds(run, l);
    run' := MembersDie(run, x.leader, |t.procs|);
    NumberIsFree(t, Last(run').table, x.leader);
    LeaderMayBeReaped(run', l);
    run' := Dies(run', x.leader);
  }

  // Then its pid is taken by a process of another group.
  lemma NumberIsReused(run: seq<Sys>, l: nat) returns (run': seq<Sys>)
    requires Run(run) && l < |Last(run).launches|
    requires var x, t := Last(run).launches[l], Last(run).table;
      x.reap && x.HasLeader() && x.leader < |t.procs| && t.procs[x.leader].Unreaped()
    ensures Extends(run, run') && Last(run') == Last(run).(table := Last(run').table)
    ensures var x, t, t' := Last(run).launches[l], Last(run).table, Last(run').table;
      x.leader < |t'.procs| && t'.procs[x.leader].status == Reaped && NamesAnother(t', t.procs[x.leader].pid, x.leader)
  {
    var leader := Last(run).launches[l].leader;
    var n := Last(run).table.procs[leader].pid;
    assert run != [];
    hide Run, ReapAllowed, FreeNumber;
    run' := GroupDies(run, l);
    var gone := Last(run').table;
    var start := LatestStart(gone.procs);
    run' := Happens(run', Spawn(n, start));
    assert Last(run').table.procs[|gone.procs|] == Proc(n, n, start, |gone.procs|, Live);
  }

  // What a launch that may be signalled can look like.
  lemma SignallableStage(s: Sys, l: nat)
    requires Inv(s) && l < |s.launches| && s.launches[l].group.MaySignal()
    ensures var x := s.launches[l];
      && x.stage in {Running, HandedOff} && (x.stage.HandedOff? ==> x.reap) && x.HasLeader()
      && x.leader < |s.table.procs| && x.group.pgid == s.table.procs[x.leader].pid
  {
    assert StageRules(s.launches[l]) && Identity(s.table, s.launches[l]);
  }

  // Every launch with a handoff timer of its own can, as long as it may be
  // signalled, come to be signalled after its leader was reaped; and if the leader
  // still is unreaped, its number can by then name another group.
  lemma OwnTimerOutlivesLeader(run: seq<Sys>, l: nat) returns (run': seq<Sys>)
    requires Run(run) && l < |Last(run).launches|
    requires !Last(run).launches[l].kind.Managed? && Last(run).launches[l].group.MaySignal()
    ensures Extends(run, run') && l < |Last(run').launches|
    ensures var x, y, t, t' := Last(run).launches[l], Last(run').launches[l], Last(run).table, Last(run').table;
      && y.group == x.group && y.leader == x.leader < |t.procs|
      && y.leader < |t'.procs| && t'.procs[y.leader].status == Reaped
      && (t.procs[x.leader].Unreaped() ==> NamesAnother(t', y.group.pgid, y.leader))
  {
    var s := Last(run);
    RunKeeps(run, |run| - 1);
    SignallableStage(s, l);
    hide Run, Inv;
    run' := run;
    if s.launches[l].stage.Running? {
      run' := Extend(run, Handoff(l));
    }
    hide Can, Do;
    if s.table.procs[s.launches[l].leader].Unreaped() {
      run' := NumberIsReused(run', l);
    }
  }

  lemma {:induction false} KindStays(run: seq<Sys>, i: nat, j: nat, l: nat)
    requires Run(run) && i <= j < |run| && l < |run[i].launches|
    ensures l < |run[j].launches| && run[j].launches[l].kind == run[i].launches[l].kind
    decreases j
  {
    hide Can, Do, Init, TableMoves;
    if i < j {
      KindStays(run, i, j - 1, l);
      assert SysNext(run[j - 1], run[j]);
      var step :| Can(run[j - 1], step) && run[j] == Do(run[j - 1], step);
      StepGrows(run[j - 1], step);
    }
  }

  // Signal before reap, exactly: however a run goes on, a launch that may be
  // signalled is never signalled after its leader's reap if and only if it is
  // under the run's own handoff.
  lemma SignalBeforeReapExactly(run: seq<Sys>, l: nat)
    requires Run(run) && l < |Last(run).launches| && Last(run).launches[l].group.MaySignal()
    ensures NeverOutlived(run, l) <==> Last(run).launches[l].kind.Managed?
  {
    assert run != [];
    hide Run, TableMoves, Can, Do;
    if Last(run).launches[l].kind.Managed? {
      forall run' | Extends(run, run') && l < |Last(run').launches| && Last(run').launches[l].group.MaySignal()
        ensures var s := Last(run');
          s.launches[l].leader < |s.table.procs| && s.table.procs[s.launches[l].leader].Unreaped()
      {
        KindStays(run', |run| - 1, |run'| - 1, l);
        SignalsReachOwnGroup(run', |run'| - 1, l);
      }
    } else {
      var run' := OwnTimerOutlivesLeader(run, l);
      assert Extends(run, run');
    }
  }

  // Both kinds of launch with a timer of their own come to be signallable.
  lemma OwnTimersOccur(start: Sys, kind: Kind) returns (run: seq<Sys>)
    requires Init(start) && !start.mode.cancelled && start.table.procs == [] && !start.book.on && !kind.Managed?
    ensures Run(run) && run[0] == start && |Last(run).launches| == 1
    ensures var x := Last(run).launches[0]; x.kind == kind && x.group.MaySignal() && x.leader == 0
    ensures |Last(run).table.procs| == 1 && Last(run).table.procs[0].status == Live
  {
    run := [start];
    assert Run(run);
    hide Run;
    if kind.Teardown? {
      run := Extend(run, WorkersDone);
      run := Extend(run, Verdict(false, true));
    }
    run := FirstLaunch(run, kind);
  }

  lemma FirstLaunch(run: seq<Sys>, kind: Kind) returns (run': seq<Sys>)
    requires Run(run) && Admitted(Last(run), kind)
    requires var s := Last(run);
      s.table.procs == [] && s.launches == [] && s.registry == map[] && s.starting.None? && !s.book.on
    ensures Extends(run, run') && |Last(run').launches| == 1
    ensures var x := Last(run').launches[0]; x.kind == kind && x.group.MaySignal() && x.leader == 0
    ensures |Last(run').table.procs| == 1 && Last(run').table.procs[0].status == Live
  {
    hide Run, Admitted;
    run' := Extend(run, BeginLaunch("own", kind, Wrote));
    run' := Extend(run', StartOk(100, 1));
    run' := Extend(run', Track(true, false, false, false));
  }

  // A launch can come to a clean end: started, signalled no more, reaped, proven empty
  // and gone from the record, with teardown open and no problem to report.
  lemma CleanEnd(start: Sys) returns (run: seq<Sys>)
    requires Init(start) && start.table.procs == [] && start.book.on && !start.mode.cancelled
    ensures Run(run) && run[0] == start
    ensures var s := Last(run);
      && |s.launches| == 1 && s.launches[0].kind.Managed? && s.launches[0].proven
      && s.mode.swept && s.mode.TeardownOpen() && !s.problem && s.book.on && s.book.disk == []
  {
    run := [start];
    assert Run(run);
    hide Run;
    run := ManagedEnds(run);
    run := StackEnds(run);
  }

  // What is left of a launch that was reaped and verified.
  ghost predicate Ended(s: Sys)
  {
    && |s.launches| == 1 && s.launches[0].kind.Managed? && s.launches[0].stage.Returned? && s.launches[0].proven
    && |s.table.procs| == 1 && s.table.procs[0].status.Reaped? && s.launches[0].leader == 0
    && s.registry == map[] && s.sweep == {} && s.starting.None? && s.mode.phase.Serving? && !s.mode.stopping
    && !s.mode.cancelled && !s.mode.sealing && !s.mode.handoffClosed && !s.problem && s.book.on && s.book.disk == []
  }

  lemma ManagedEnds(run: seq<Sys>) returns (run': seq<Sys>)
    requires Run(run) && Init(Last(run)) && Last(run).table.procs == [] && Last(run).book.on && !Last(run).mode.cancelled
    ensures Extends(run, run') && Ended(Last(run'))
  {
    run' := ManagedStarts(run);
    run' := ManagedReaped(run');
  }

  ghost predicate Up(s: Sys)
  {
    && s.launches == [Launch("own", Managed, Running, 0, Authority(100, false), false, false)]
    && s.table.procs == [Proc(100, 100, 1, 0, Live)]
    && s.registry == map["own" := 0] && s.sweep == {} && s.starting.None? && s.mode.phase.Serving? && !s.mode.stopping
    && !s.mode.cancelled && !s.mode.sealing && !s.mode.handoffClosed && !s.problem && s.book.on
    && s.book.records == s.book.disk == [Entry(0, Group("own", 100, 1))]
  }

  lemma ManagedStarts(run: seq<Sys>) returns (run': seq<Sys>)
    requires Run(run) && Init(Last(run)) && Last(run).table.procs == [] && Last(run).book.on && !Last(run).mode.cancelled
    ensures Extends(run, run') && Up(Last(run')) && Last(run').mode == Last(run).mode
  {
    hide Run;
    run' := Extend(run, BeginLaunch("own", Managed, Wrote));
    run' := Extend(run', StartOk(100, 1));
    assert Last(run').book.records == [Entry(0, Group("own", 0, 0))];
    run' := Tracks(run');
  }

  lemma Tracks(run: seq<Sys>) returns (run': seq<Sys>)
    requires Run(run)
    requires var s := Last(run);
      && s.launches == [Launch("own", Managed, Started, 0, Untracked, false, false)]
      && s.table.procs == [Proc(100, 100, 1, 0, Live)] && s.starting == Some(0)
      && s.registry == map[] && s.sweep == {} && s.mode.phase.Serving? && !s.mode.stopping
      && !s.mode.cancelled && !s.mode.sealing && !s.mode.handoffClosed && !s.problem && s.book.on
      && s.book.records == [Entry(0, Group("own", 0, 0))]
    ensures Extends(run, run') && Up(Last(run')) && Last(run').mode == Last(run).mode
  {
    hide Run;
    var filled := Fill([Entry(0, Group("own", 0, 0))], 0, Group("own", 100, 1));
    assert filled == [Entry(0, Group("own", 100, 1))] + Fill([], 0, Group("own", 100, 1));
    run' := Extend(run, Track(true, false, false, true));
    assert Last(run').book.records == filled;
  }

  lemma ManagedReaped(run: seq<Sys>) returns (run': seq<Sys>)
    requires Run(run) && Up(Last(run))
    ensures Extends(run, run') && Ended(Last(run'))
  {
    hide Run;
    run' := Extend(run, Withdraw(0));
    run' := Extend(run', StartReap(0));
    run' := Dies(run', 0);
    run' := Extend(run', Verify(0, true, false, true));
    assert Without([Entry(0, Group("own", 100, 1))], 0) == [];
  }

  // A stack whose worker does not end in time is swept by the handoff: its group is
  // sealed before the worker is released, and what was not seen to be empty is reported.
  lemma HandoffEnd(start: Sys) returns (run: seq<Sys>)
    requires Init(start) && start.table.procs == [] && start.book.on && !start.mode.cancelled && start.mode.hasHandoff
    ensures Run(run) && run[0] == start
    ensures var s := Last(run);
      && |s.launches| == 1 && s.launches[0].stage.HandedOff? && s.launches[0].reap && !s.launches[0].proven
      && s.launches[0].group == Authority(0, true)
      && s.mode.swept && s.mode.stopping && s.mode.handoffClosed && s.mode.phase.Done? && s.problem
  {
    run := [start];
    assert Run(run);
    hide Run;
    run := ManagedStarts(run);
    run := Sweeps(run);
    run := Releases(run);
  }

  ghost predicate Sealed(s: Sys)
  {
    && |s.launches| == 1 && s.launches[0].kind.Managed? && s.launches[0].stage.Running? && !s.launches[0].proven
    && s.launches[0].group == Authority(0, true) && s.launches[0].leader == 0 && |s.table.procs| == 1
    && s.registry == map[] && s.sweep == {} && s.starting.None? && s.mode.phase.HandingOff? && s.mode.stopping
    && s.mode.swept && s.mode.sealing && s.problem
  }

  lemma Sweeps(run: seq<Sys>) returns (run': seq<Sys>)
    requires Run(run) && Up(Last(run)) && Last(run).mode.hasHandoff
    ensures Extends(run, run') && Sealed(Last(run'))
  {
    hide Run;
    run' := Extend(run, Cancel);
    run' := Extend(run', HandoffTimer);
    assert Last(run').sweep == {0} by { assert map["own" := 0]["own"] == 0; }
    assert Last(run').sweep - {0} == {};
    run' := Extend(run', SealWithdraw(0));
    run' := Extend(run', SealFinish(0, false, false));
  }

  lemma Releases(run: seq<Sys>) returns (run': seq<Sys>)
    requires Run(run) && Sealed(Last(run))
    ensures Extends(run, run')
    ensures var s := Last(run');
      && |s.launches| == 1 && s.launches[0].stage.HandedOff? && s.launches[0].reap && !s.launches[0].proven
      && s.launches[0].group == Authority(0, true)
      && s.mode.swept && s.mode.stopping && s.mode.handoffClosed && s.mode.phase.Done? && s.problem
  {
    hide Run;
    run' := Extend(run, CloseHandoff);
    run' := Extend(run', Handoff(0));
    run' := Extend(run', WorkersDone);
    run' := Extend(run', Verdict(true, true));
  }

  lemma StackEnds(run: seq<Sys>) returns (run': seq<Sys>)
    requires Run(run) && Ended(Last(run))
    ensures Extends(run, run')
    ensures var s := Last(run');
      && s.launches == Last(run).launches && s.mode.swept && s.mode.TeardownOpen() && !s.problem && s.book == Last(run).book
  {
    hide Run;
    run' := Extend(run, Cancel);
    run' := Extend(run', WorkersDone);
    run' := Extend(run', SweepDone);
    run' := Extend(run', Verdict(false, true));
  }

  // ── the crash record ────────────────────────────────────────────────────────

  // At every moment, with any pattern of failed writes, every launch not proven
  // empty has an entry on disk that is pending or carries its true number.
  lemma DiskIsSuperset(run: seq<Sys>, i: nat, l: nat)
    requires Run(run) && i < |run| && run[i].book.on && l < |run[i].launches|
    requires run[i].launches[l].Launched() && !run[i].launches[l].proven
    ensures exists e :: e in run[i].book.disk && e.launch == l && TrueEntry(run[i].table, run[i].launches, e)
  {
    RunKeeps(run, i);
    var e :| e in run[i].book.disk && e.launch == l;
    assert TrueEntry(run[i].table, run[i].launches, e);
  }

  // A launch that did not start, or whose group was found empty, leaves the disk with
  // the write that follows.
  lemma GoneLeavesDisk(s: Sys, step: Step, l: nat, e: Entry)
    requires Inv(s) && s.book.on && Can(s, step)
    requires match step
      case StartFailed(wrote) => s.starting == Some(l) && wrote
      case Verify(m, empty, _, wrote) => m == l && !TakenOver(s, l) && empty && wrote
      case SealFinish(m, empty, wrote) => m == l && empty && wrote
      case _ => false
    requires exists f :: f in s.book.records && f.launch == l
    ensures e in Do(s, step).book.disk ==> e.launch != l
  {
    hide Inv, MayReportEmpty;
  }

  // What the record may have dropped has no live member.
  lemma ProvenStaysEmpty(run: seq<Sys>, i: nat, l: nat)
    requires Run(run) && i < |run| && l < |run[i].launches| && run[i].launches[l].proven
    ensures run[i].launches[l].HasLeader() && !LiveIn(run[i].table, run[i].launches[l].leader)
  {
    RunKeeps(run, i);
  }
}
