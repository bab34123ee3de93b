/**
 What every step of a run keeps, and what follows for shutdown, signals and the
 crash record.
 */
module Safety {
  import opened Wrappers
  import opened Kernel
  import opened Authority
  import opened World
  import opened Supervision

  // ── invariant ───────────────────────────────────────────────────────────────

  // Every started launch founded its own group, its handle names that group or
  // nothing, and its leader is unreaped until the runner begins to wait for it.
  ghost predicate Identity(t: Table, x: Launch)
  {
    x.HasLeader() ==>
      && x.leader < |t.procs| && t.procs[x.leader].group == x.leader
      && (x.group.pgid == 0 || x.group.pgid == t.procs[x.leader].pid)
      && (!x.reap ==> t.procs[x.leader].Unreaped())
  }

  ghost predicate Identities(t: Table, ls: seq<Launch>)
  {
    forall l | 0 <= l < |ls| :: Identity(t, ls[l])
  }

  ghost predicate DistinctLeaders(ls: seq<Launch>)
  {
    forall l, m | 0 <= l < |ls| && 0 <= m < |ls| && ls[l].HasLeader() && ls[m].HasLeader() ::
      ls[l].leader == ls[m].leader ==> l == m
  }

  // What a launch's stage says about its handle and its reap. Signal before
  // reap is the last clause: only a launch that was handed off by a timer of its
  // own can still signal after its wait began.
  ghost predicate StageRules(x: Launch)
  {
    && (x.stage in {Pending, Refused, Started} ==> x.group == Untracked && !x.reap && !x.proven)
    && (x.stage.Running? ==> !x.reap)
    && (x.stage in {Withdrawing, Reaping} ==> !x.group.MaySignal())
    && (x.stage.Withdrawing? ==> !x.reap)
    && (x.stage in {Reaping, HandedOff} ==> x.reap)
    && (x.stage.Returned? ==> !x.group.MaySignal())
    && (x.reap && x.group.MaySignal() ==> !x.kind.Managed? && x.stage.HandedOff?)
  }

  ghost predicate Stages(ls: seq<Launch>, starting: Option<nat>)
  {
    && (starting.Some? ==> starting.value < |ls| && ls[starting.value].stage in {Pending, Started})
    && forall l | 0 <= l < |ls| :: StageRules(ls[l]) && (ls[l].stage in {Pending, Started} ==> starting == Some(l))
  }

  // While a launch is being started nothing else runs under its name.
  ghost predicate Names(ls: seq<Launch>, starting: Option<nat>)
  {
    starting.Some? && starting.value < |ls| ==>
      forall m | 0 <= m < |ls| && m != starting.value && ls[m].name == ls[starting.value].name ::
        ls[m].stage in {Refused, Returned}
  }

  predicate Registered(ls: seq<Launch>, registry: map<string, nat>, l: nat)
    requires l < |ls|
  {
    ls[l].name in registry && registry[ls[l].name] == l
  }

  ghost predicate OpenHandle(t: Table, ls: seq<Launch>, l: nat)
  {
    && l < |ls| && ls[l].HasLeader() && !ls[l].stage.Started?
    && ls[l].leader < |t.procs| && ls[l].group.pgid == t.procs[ls[l].leader].pid
  }

  // Everything registered or being swept still has its handle open.
  ghost predicate Registry(t: Table, ls: seq<Launch>, registry: map<string, nat>, sweep: set<nat>)
  {
    && (forall n | n in registry :: OpenHandle(t, ls, registry[n]) && ls[registry[n]].name == n && registry[n] !in sweep)
    && (forall l | l in sweep :: OpenHandle(t, ls, l))
  }

  // A live worker's group is where the terminal sweep will find it, or the sweep
  // has sealed it.
  ghost predicate Workers(ls: seq<Launch>, registry: map<string, nat>, sweep: set<nat>, sealing: bool)
  {
    forall l | 0 <= l < |ls| && ls[l].stage in {Running, Withdrawing, Reaping} ::
      Registered(ls, registry, l) || l in sweep || (sealing && !ls[l].kind.Teardown? && !ls[l].group.MaySignal())
  }

  // A group is registered, being swept, proven empty, or reported.
  ghost predicate Ledger(ls: seq<Launch>, registry: map<string, nat>, sweep: set<nat>, problem: bool)
  {
    forall l | 0 <= l < |ls| && ls[l].HasLeader() && !ls[l].stage.Started? ::
      Registered(ls, registry, l) || l in sweep || ls[l].proven || problem
  }

  ghost predicate ProvenEmpty(t: Table, ls: seq<Launch>)
  {
    forall l | 0 <= l < |ls| && ls[l].proven :: ls[l].HasLeader() && !LiveIn(t, ls[l].leader)
  }

  ghost predicate Phases(m: Mode, registry: map<string, nat>, sweep: set<nat>, starting: Option<nat>)
  {
    && (sweep != {} ==> m.Sweeping())
    && (m.Sweeping() ==> m.sealing) && (m.sealing ==> !m.phase.Serving?)
    && (m.phase in {HandingOff, Draining} ==> m.hasHandoff)
    && (starting.Some? ==> m.phase in {Serving, HandingOff, Draining, InTeardown})
    && (m.phase in {HandingOff, Draining, FinalSweep, InTeardown, TeardownSweep} ==> m.stopping)
    && (m.phase in {HandingOff, Draining, FinalSweep} ==> m.swept)
    && (m.handoffClosed ==> m.swept && m.phase in {Draining, Swept, Done})
    && (m.swept ==> m.stopping && m.sealing)
    && (m.swept && !m.phase.InTeardown? ==> registry == map[] && starting.None?)
    && (m.phase.TeardownSweep? ==> registry == map[])
  }

  // Teardown processes exist only from the teardown phase on, and by then every
  // other worker has returned.
  ghost predicate Kinds(ls: seq<Launch>, phase: Phase)
  {
    forall l | 0 <= l < |ls| ::
      if ls[l].kind.Teardown? then phase.InTeardown? || (phase in {TeardownSweep, Done} && ls[l].Over())
      else phase in {Serving, HandingOff, Draining} || ls[l].Over()
  }

  // Teardown only runs beside groups proven empty.
  ghost predicate Quiet(ls: seq<Launch>)
  {
    forall l | 0 <= l < |ls| && !ls[l].kind.Teardown? && ls[l].HasLeader() :: ls[l].proven
  }

  ghost predicate Covered(es: seq<Entry>, l: nat)
  {
    exists e :: e in es && e.launch == l
  }

  // An entry is pending, or carries the true number and start time (0: unread).
  ghost predicate TrueEntry(t: Table, ls: seq<Launch>, e: Entry)
  {
    && e.launch < |ls| && e.group.name == ls[e.launch].name
    && (e.group.pgid == 0 || (
          && ls[e.launch].HasLeader() && Leads(t, ls[e.launch].leader, e.group.pgid)
          && (e.group.leaderStart == 0 || e.group.leaderStart == t.procs[ls[e.launch].leader].start)))
  }

  // The superset rule: every launch not proven empty has a true entry.
  ghost predicate Superset(t: Table, ls: seq<Launch>, es: seq<Entry>)
  {
    && (forall e | e in es :: TrueEntry(t, ls, e))
    && (forall l | 0 <= l < |ls| && ls[l].Launched() && !ls[l].proven :: Covered(es, l))
  }

  ghost predicate Records(t: Table, ls: seq<Launch>, b: Book)
  {
    b.on ==> Superset(t, ls, b.records) && Superset(t, ls, b.disk)
  }

  // What is said of the launches alone.
  ghost predicate Launches(t: Table, ls: seq<Launch>, starting: Option<nat>, m: Mode)
  {
    && Identities(t, ls) && DistinctLeaders(ls) && Stages(ls, starting) && Names(ls, starting)
    && ProvenEmpty(t, ls) && Kinds(ls, m.phase)
    && (m.swept && m.phase in {InTeardown, TeardownSweep} ==> Quiet(ls))
  }

  // Where each launch's group is accounted for.
  ghost predicate Owners(t: Table, ls: seq<Launch>, registry: map<string, nat>, sweep: set<nat>, sealing: bool,
                         problem: bool)
  {
    Registry(t, ls, registry, sweep) && Workers(ls, registry, sweep, sealing) && Ledger(ls, registry, sweep, problem)
  }

  ghost predicate Inv(s: Sys)
  {
    && Launches(s.table, s.launches, s.starting, s.mode)
    && Owners(s.table, s.launches, s.registry, s.sweep, s.mode.sealing, s.problem)
    && Phases(s.mode, s.registry, s.sweep, s.starting)
    && Records(s.table, s.launches, s.book)
  }

  lemma InitInv(s: Sys)
    requires Init(s)
    ensures Inv(s)
  {
  }

  // ── changes of one launch ───────────────────────────────────────────────────

  // A worker or the sweep moving one launch on without settling its group.
  ghost predicate Advances(x: Launch, y: Launch)
  {
    && y == x.(stage := y.stage, reap := y.reap, group := x.group.(withdrawn := y.group.withdrawn))
    && (x.group.withdrawn ==> y.group.withdrawn) && (x.reap ==> y.reap)
    && x.stage in {Running, Withdrawing, Reaping, Returned, HandedOff}
    && y.stage in {Running, Withdrawing, Reaping, Returned, HandedOff}
    && StageRules(y)
    && (x.Over() ==> y.Over()) && (x.stage.Returned? ==> y.stage.Returned?)
  }

  // A record that covers the launches before a change covers them after it, as
  // long as no launch comes to need an entry.
  lemma RecordsKept(t: Table, ls: seq<Launch>, ls': seq<Launch>, b: Book)
    requires Records(t, ls, b) && |ls'| == |ls|
    requires forall l | 0 <= l < |ls| ::
      && ls'[l].name == ls[l].name
      && (ls[l].HasLeader() ==> ls'[l].HasLeader() && ls'[l].leader == ls[l].leader)
      && (ls'[l].Launched() && !ls'[l].proven ==> ls[l].Launched() && !ls[l].proven)
    ensures Records(t, ls', b)
  {
  }

  lemma AdvanceKeepsLaunches(t: Table, ls: seq<Launch>, starting: Option<nat>, m: Mode, l: nat, y: Launch)
    requires Launches(t, ls, starting, m) && l < |ls| && Advances(ls[l], y)
    ensures Launches(t, ls[l := y], starting, m)
  {
  }

  lemma AdvanceKeepsOwners(t: Table, ls: seq<Launch>, l: nat, y: Launch, registry: map<string, nat>,
                           sweep: set<nat>, sealing: bool, problem: bool, problem': bool)
    requires Owners(t, ls, registry, sweep, sealing, problem) && l < |ls| && Advances(ls[l], y) && (problem ==> problem')
    ensures Owners(t, ls[l := y], registry, sweep, sealing, problem')
  {
  }

  lemma AdvanceKeeps(s: Sys, l: nat, y: Launch, problem: bool)
    requires Inv(s) && l < |s.launches| && Advances(s.launches[l], y) && (s.problem ==> problem)
    ensures Inv(Put(s, l, y).(problem := problem))
  {
    RecordsKept(s.table, s.launches, s.launches[l := y], s.book);
    hide Launches, Owners, Phases, Records, Advances;
    AdvanceKeepsLaunches(s.table, s.launches, s.starting, s.mode, l, y);
    AdvanceKeepsOwners(s.table, s.launches, l, y, s.registry, s.sweep, s.mode.sealing, s.problem, problem);
  }

  lemma WithdrawKeeps(s: Sys, l: nat)
    requires Inv(s) && Can(s, Withdraw(l))
    ensures Inv(Do(s, Withdraw(l)))
  {
    var x := s.launches[l];
    assert StageRules(x);
    hide Inv;
    AdvanceKeeps(s, l, x.(stage := Withdrawing, group := x.group.Withdraw()), s.problem);
  }

  lemma StartReapKeeps(s: Sys, l: nat)
    requires Inv(s) && Can(s, StartReap(l))
    ensures Inv(Do(s, StartReap(l)))
  {
    assert StageRules(s.launches[l]);
    hide Inv;
    AdvanceKeeps(s, l, s.launches[l].(stage := Reaping, reap := true), s.problem);
  }

  lemma SealWithdrawKeeps(s: Sys, l: nat)
    requires Inv(s) && Can(s, SealWithdraw(l))
    ensures Inv(Do(s, SealWithdraw(l)))
  {
    var x := s.launches[l];
    assert StageRules(x) && OpenHandle(s.table, s.launches, l);
    StartingIsUnregistered(s, l);
    hide Inv;
    AdvanceKeeps(s, l, x.(group := x.group.Withdraw()), s.problem);
  }

  lemma StartingIsUnregistered(s: Sys, l: nat)
    requires Inv(s) && OpenHandle(s.table, s.launches, l)
    ensures s.launches[l].stage in {Running, Withdrawing, Reaping, Returned, HandedOff}
  {
  }

  // A launch handed off by the run's own handoff has been sealed before it; a
  // timer of its own may hand it off while it can still be signalled.
  lemma HandoffKeeps(s: Sys, l: nat)
    requires Inv(s) && Can(s, Handoff(l))
    ensures Inv(Do(s, Handoff(l)))
  {
    var x := s.launches[l];
    assert StageRules(x) && (x.kind.Managed? ==> !x.group.MaySignal());
    hide Inv;
    AdvanceKeeps(s, l, x.(stage := HandedOff, reap := true), s.problem);
  }

  // ── the process table ───────────────────────────────────────────────────────

  lemma TableKeepsLaunches(t: Table, t': Table, ls: seq<Launch>, starting: Option<nat>, m: Mode)
    requires Launches(t, ls, starting, m) && Evolves(t, t')
    requires forall l | 0 <= l < |ls| && ls[l].HasLeader() && !ls[l].reap ::
      ls[l].leader < |t.procs| && t'.procs[ls[l].leader].Unreaped()
    ensures Launches(t', ls, starting, m)
  {
  }

  lemma TableKeepsOwners(t: Table, t': Table, ls: seq<Launch>, registry: map<string, nat>, sweep: set<nat>,
                         sealing: bool, problem: bool)
    requires Owners(t, ls, registry, sweep, sealing, problem) && Evolves(t, t')
    ensures Owners(t', ls, registry, sweep, sealing, problem)
  {
  }

  lemma TableKeepsRecords(t: Table, t': Table, ls: seq<Launch>, b: Book)
    requires Records(t, ls, b) && Evolves(t, t')
    ensures Records(t', ls, b)
  {
  }

  lemma LeadersStayUnreaped(s: Sys, e: Event)
    requires Identities(s.table, s.launches) && Enabled(s.table, e) && (e.Reap? ==> ReapAllowed(s, e.who))
    ensures forall l | 0 <= l < |s.launches| && s.launches[l].HasLeader() && !s.launches[l].reap ::
      s.launches[l].leader < |s.table.procs| && Apply(s.table, e).procs[s.launches[l].leader].Unreaped()
  {
  }

  lemma KernelKeeps(s: Sys, e: Event)
    requires Valid(s.table) && Inv(s) && Can(s, Step.Kernel(e))
    ensures Inv(Do(s, Step.Kernel(e)))
  {
    var t, t' := s.table, Apply(s.table, e);
    ApplyEvolves(t, e);
    LeadersStayUnreaped(s, e);
    hide Valid, Launches, Owners, Phases, Records, Evolves, Apply;
    TableKeepsLaunches(t, t', s.launches, s.starting, s.mode);
    TableKeepsOwners(t, t', s.launches, s.registry, s.sweep, s.mode.sealing, s.problem);
    TableKeepsRecords(t, t', s.launches, s.book);
  }

  // ── flags and sweeps ────────────────────────────────────────────────────────

  lemma ModeKeeps(s: Sys, m: Mode, problem: bool)
    requires Inv(s) && m.sealing == s.mode.sealing && (s.problem ==> problem)
    requires Phases(m, s.registry, s.sweep, s.starting) && Kinds(s.launches, m.phase)
    requires m.swept && m.phase in {InTeardown, TeardownSweep} ==> Quiet(s.launches)
    ensures Inv(s.(mode := m, problem := problem))
  {
    hide Identities, DistinctLeaders, Stages, Names, Registry, Workers, ProvenEmpty, Records, Phases, Kinds, Quiet;
  }

  lemma CancelKeeps(s: Sys, step: Step)
    requires Inv(s) && step in {Cancel, CloseAdmission} && Can(s, step)
    ensures Inv(Do(s, step))
  {
    hide Identities, DistinctLeaders, Stages, Names, Owners, ProvenEmpty, Records, Kinds, Quiet;
    ModeKeeps(s, Do(s, step).mode, s.problem);
  }

  lemma PhaseStepKeeps(s: Sys, step: Step)
    requires Inv(s) && step in {CloseHandoff, SweepDone} && Can(s, step)
    ensures Inv(Do(s, step))
  {
    hide Identities, DistinctLeaders, Stages, Names, Owners, ProvenEmpty, Records, Quiet;
    ModeKeeps(s, Do(s, step).mode, s.problem);
  }

  // At the verdict nothing is left registered or to be swept.
  lemma SweptIsProven(s: Sys)
    requires Inv(s) && s.mode.swept && s.mode.phase in {Swept, Done} && !s.problem
    ensures forall l | 0 <= l < |s.launches| && s.launches[l].HasLeader() :: s.launches[l].proven
  {
  }

  lemma VerdictKeeps(s: Sys, unreaped: bool, configured: bool)
    requires Inv(s) && Can(s, Verdict(unreaped, configured))
    ensures Inv(Do(s, Verdict(unreaped, configured)))
  {
    if s.mode.swept && !s.problem { SweptIsProven(s); }
    hide Identities, DistinctLeaders, Stages, Names, Owners, ProvenEmpty, Records, Unreaped;
    ModeKeeps(s, Do(s, Verdict(unreaped, configured)).mode, s.problem || unreaped);
  }

  lemma TeardownDoneKeeps(s: Sys, unreaped: bool)
    requires Inv(s) && Can(s, TeardownDone(unreaped))
    ensures Inv(Do(s, TeardownDone(unreaped)))
  {
    hide Identities, DistinctLeaders, Stages, Names, Owners, ProvenEmpty, Records, Quiet, Unreaped;
    ModeKeeps(s, Do(s, TeardownDone(unreaped)).mode, s.problem || unreaped);
  }

  // Taking the registry moves every registered group to the sweep.
  lemma TakingKeepsOwners(t: Table, ls: seq<Launch>, registry: map<string, nat>, sealing: bool, problem: bool)
    requires Owners(t, ls, registry, {}, sealing, problem)
    ensures Owners(t, ls, map[], registry.Values, true, problem)
  {
    forall l | 0 <= l < |ls| && Registered(ls, registry, l)
      ensures l in registry.Values
    {
      assert ls[l].name in registry.Keys;
    }
  }

  lemma TakeKeeps(s: Sys, phase: Phase, swept: bool)
    requires Inv(s) && s.sweep == {}
    requires var s' := TakeGroups(s, phase, swept); Phases(s'.mode, s'.registry, s'.sweep, s'.starting)
    requires Kinds(s.launches, phase) && (swept && phase in {InTeardown, TeardownSweep} ==> Quiet(s.launches))
    ensures Inv(TakeGroups(s, phase, swept))
  {
    hide Identities, DistinctLeaders, Stages, Names, Owners, ProvenEmpty, Records, Phases, Kinds, Quiet;
    TakingKeepsOwners(s.table, s.launches, s.registry, s.mode.sealing, s.problem);
  }

  lemma HandoffTimerKeeps(s: Sys)
    requires Inv(s) && Can(s, HandoffTimer)
    ensures Inv(Do(s, HandoffTimer))
  {
    hide Identities, DistinctLeaders, Stages, Names, Owners, ProvenEmpty, Records, Quiet;
    TakeKeeps(s, HandingOff, true);
  }

  lemma WorkersDoneKeeps(s: Sys)
    requires Inv(s) && Can(s, WorkersDone)
    ensures Inv(Do(s, WorkersDone))
  {
    hide Identities, DistinctLeaders, Stages, Names, Owners, ProvenEmpty, Records, Quiet;
    if s.mode.phase.Draining? || !s.mode.cancelled {
      ModeKeeps(s, Do(s, WorkersDone).mode, s.problem);
    } else {
      TakeKeeps(s, FinalSweep, true);
    }
  }

  lemma CloseTeardownKeeps(s: Sys)
    requires Inv(s) && Can(s, CloseTeardown)
    ensures Inv(Do(s, CloseTeardown))
  {
    hide Identities, DistinctLeaders, Stages, Names, Owners, ProvenEmpty, Records, Quiet;
    TakeKeeps(s, TeardownSweep, s.mode.swept);
  }

  // ── starting a launch ───────────────────────────────────────────────────────

  // Removing the entries of a launch that needs none, with the write failing or
  // not, keeps the record a superset.
  lemma DropKeepsRecords(t: Table, ls: seq<Launch>, b: Book, l: nat, wrote: bool)
    requires Records(t, ls, b) && l < |ls| && (ls[l].Launched() ==> ls[l].proven)
    ensures Records(t, ls, DropRecord(b, l, wrote))
  {
    if b.on { WithoutKeeps(t, ls, b.records, l); }
  }

  lemma WithoutKeeps(t: Table, ls: seq<Launch>, es: seq<Entry>, l: nat)
    requires Superset(t, ls, es) && l < |ls| && (ls[l].Launched() ==> ls[l].proven)
    ensures Superset(t, ls, Without(es, l))
  {
    forall k | 0 <= k < |ls| && ls[k].Launched() && !ls[k].proven
      ensures Covered(Without(es, l), k)
    {
      var e :| e in es && e.launch == k;
      assert e in Without(es, l);
    }
  }

  lemma FillKeepsRecords(t: Table, ls: seq<Launch>, b: Book, l: nat, g: Group, wrote: bool)
    requires Records(t, ls, b) && TrueEntry(t, ls, Entry(l, g))
    ensures Records(t, ls, FillRecord(b, l, g, wrote))
  {
    if b.on { FillKeeps(t, ls, b.records, l, g); }
  }

  lemma FillKeeps(t: Table, ls: seq<Launch>, es: seq<Entry>, l: nat, g: Group)
    requires Superset(t, ls, es) && TrueEntry(t, ls, Entry(l, g))
    ensures Superset(t, ls, Fill(es, l, g))
  {
    forall k | 0 <= k < |ls| && ls[k].Launched() && !ls[k].proven
      ensures Covered(Fill(es, l, g), k)
    {
      var e :| e in es && e.launch == k;
      assert (if k == l then Entry(l, g) else e) in Fill(es, l, g);
    }
  }

  lemma AppendKeepsRecords(t: Table, ls: seq<Launch>, x: Launch, es: seq<Entry>)
    requires Superset(t, ls, es) && x.stage.Pending?
    ensures Superset(t, ls + [x], es + [Entry(|ls|, Group(x.name, 0, 0))])
  {
    var es' := es + [Entry(|ls|, Group(x.name, 0, 0))];
    forall l | 0 <= l <= |ls| && (ls + [x])[l].Launched() && !(ls + [x])[l].proven
      ensures Covered(es', l)
    {
      if l < |ls| {
        var e :| e in es && e.launch == l;
        assert e in es';
      } else {
        assert es'[|es|] in es';
      }
    }
  }

  lemma BeginKeepsLaunches(s: Sys, x: Launch)
    requires Launches(s.table, s.launches, s.starting, s.mode) && Phases(s.mode, s.registry, s.sweep, s.starting)
    requires s.starting.None? && x.stage.Pending? && StageRules(x)
    requires Admitted(s, x.kind) && NameFree(s, x.name, x.kind)
    ensures Launches(s.table, s.launches + [x], Some(|s.launches|), s.mode)
    ensures Phases(s.mode, s.registry, s.sweep, Some(|s.launches|))
  {
  }

  lemma BeginKeepsOwners(t: Table, ls: seq<Launch>, x: Launch, registry: map<string, nat>, sweep: set<nat>,
                         sealing: bool, problem: bool)
    requires Owners(t, ls, registry, sweep, sealing, problem) && x.stage.Pending?
    ensures Owners(t, ls + [x], registry, sweep, sealing, problem)
  {
  }

  lemma BeginLaunchKeeps(s: Sys, name: string, kind: Kind, write: Write)
    requires Inv(s) && Can(s, BeginLaunch(name, kind, write))
    ensures Inv(Do(s, BeginLaunch(name, kind, write)))
  {
    hide Launches, Owners, Phases, NameFree, Superset, Admitted;
    var x := Launch(name, kind, Pending, 0, Untracked, false, false);
    BeginKeepsLaunches(s, x);
    BeginKeepsOwners(s.table, s.launches, x, s.registry, s.sweep, s.mode.sealing, s.problem);
    if s.book.on { AppendKeepsRecords(s.table, s.launches, x, s.book.records); }
  }

  lemma StartFailedKeeps(s: Sys, wrote: bool)
    requires Inv(s) && Can(s, StartFailed(wrote))
    ensures Inv(Do(s, StartFailed(wrote)))
  {
    var l := s.starting.value;
    var ls' := s.launches[l := s.launches[l].(stage := Refused)];
    RefusedKeeps(s, l);
    RecordsKept(s.table, s.launches, ls', s.book);
    hide Launches, Owners, Phases, Records, DropRecord;
    DropKeepsRecords(s.table, ls', s.book, l, wrote);
  }

  lemma RefusedKeeps(s: Sys, l: nat)
    requires Inv(s) && s.starting == Some(l) && l < |s.launches| && s.launches[l].stage.Pending?
    ensures var ls' := s.launches[l := s.launches[l].(stage := Refused)];
      && Launches(s.table, ls', None, s.mode) && Phases(s.mode, s.registry, s.sweep, None)
      && Owners(s.table, ls', s.registry, s.sweep, s.mode.sealing, s.problem)
  {
  }

  // The started process founds a group of its own, so the launch's identity is
  // that group's.
  lemma StartedKeepsLaunches(t: Table, t': Table, ls: seq<Launch>, l: nat, m: Mode)
    requires Launches(t, ls, Some(l), m) && l < |ls| && ls[l].stage.Pending?
    requires |t'.procs| == |t.procs| + 1 && t'.procs[|t.procs|].group == |t.procs|
    requires t'.procs[|t.procs|].Unreaped() && forall i | 0 <= i < |t.procs| :: t'.procs[i] == t.procs[i]
    ensures Launches(t', ls[l := ls[l].(stage := Started, leader := |t.procs|)], Some(l), m)
  {
    assert forall g | 0 <= g < |t.procs| && !LiveIn(t, g) :: !LiveIn(t', g);
  }

  lemma StartedKeepsOwners(t: Table, t': Table, ls: seq<Launch>, l: nat, registry: map<string, nat>, sweep: set<nat>,
                           sealing: bool, problem: bool)
    requires Owners(t, ls, registry, sweep, sealing, problem) && l < |ls| && ls[l].stage.Pending? && Evolves(t, t')
    ensures Owners(t', ls[l := ls[l].(stage := Started, leader := |t.procs|)], registry, sweep, sealing, problem)
  {
  }

  lemma StartOkKeeps(s: Sys, pid: int, start: nat)
    requires Valid(s.table) && Inv(s) && Can(s, StartOk(pid, start))
    ensures Inv(Do(s, StartOk(pid, start)))
  {
    hide Valid, Launches, Owners, Phases, Records, Evolves;
    var l := s.starting.value;
    var t' := Apply(s.table, Spawn(pid, start));
    ApplyEvolves(s.table, Spawn(pid, start));
    StartedKeepsLaunches(s.table, t', s.launches, l, s.mode);
    StartedKeepsOwners(s.table, t', s.launches, l, s.registry, s.sweep, s.mode.sealing, s.problem);
    TableKeepsRecords(s.table, t', s.launches, s.book);
    RecordsKept(t', s.launches, s.launches[l := s.launches[l].(stage := Started, leader := |s.table.procs|)], s.book);
  }

  // ── settling a group ────────────────────────────────────────────────────────

  // An observation of "empty" through an open handle is true of the launch.
  lemma EmptyIsTrue(t: Table, ls: seq<Launch>, l: nat)
    requires Valid(t) && Identities(t, ls) && OpenHandle(t, ls, l) && MayReportEmpty(ls[l].group, t)
    ensures !LiveIn(t, ls[l].leader)
  {
    assert Identity(t, ls[l]);
    NoHolderNoMember(t, ls[l].leader, ls[l].group.pgid);
  }

  lemma CloseKeepsLaunches(t: Table, ls: seq<Launch>, starting: Option<nat>, m: Mode, l: nat, empty: bool)
    requires Valid(t) && Launches(t, ls, starting, m) && OpenHandle(t, ls, l)
    requires empty ==> MayReportEmpty(ls[l].group, t)
    ensures Launches(t, ls[l := Closed(ls[l], empty)], starting, m)
  {
    if empty { EmptyIsTrue(t, ls, l); }
    hide Valid, MayReportEmpty;
  }

  lemma CloseKeepsRecords(t: Table, ls: seq<Launch>, b: Book, l: nat, empty: bool, wrote: bool)
    requires Records(t, ls, b) && OpenHandle(t, ls, l)
    ensures Records(t, ls[l := Closed(ls[l], empty)], if empty then DropRecord(b, l, wrote) else b)
  {
    RecordsKept(t, ls, ls[l := Closed(ls[l], empty)], b);
    if empty { DropKeepsRecords(t, ls[l := Closed(ls[l], true)], b, l, wrote); }
  }

  lemma SealKeepsOwners(t: Table, ls: seq<Launch>, l: nat, empty: bool, phase: Phase, registry: map<string, nat>,
                        sweep: set<nat>, problem: bool)
    requires Owners(t, ls, registry, sweep, true, problem) && Kinds(ls, phase)
    requires l in sweep && phase in {HandingOff, FinalSweep, TeardownSweep} && OpenHandle(t, ls, l)
    ensures Owners(t, ls[l := Closed(ls[l], empty)], registry, sweep - {l}, true, problem || !empty)
  {
  }

  lemma SealFinishKeeps(s: Sys, l: nat, empty: bool, wrote: bool)
    requires Valid(s.table) && Inv(s) && Can(s, SealFinish(l, empty, wrote))
    ensures Inv(Do(s, SealFinish(l, empty, wrote)))
  {
    assert OpenHandle(s.table, s.launches, l) && Kinds(s.launches, s.mode.phase);
    assert Phases(s.mode, s.registry, s.sweep - {l}, s.starting);
    hide Valid, Launches, Owners, Records, Closed, MayReportEmpty, DropRecord, OpenHandle, Kinds;
    CloseKeepsLaunches(s.table, s.launches, s.starting, s.mode, l, empty);
    CloseKeepsRecords(s.table, s.launches, s.book, l, empty, wrote);
    SealKeepsOwners(s.table, s.launches, l, empty, s.mode.phase, s.registry, s.sweep, s.problem);
  }

  // A worker that verifies its own group finds it registered, with no sweep under
  // way that could have sealed it.
  lemma VerifyOwnsGroup(s: Sys, l: nat)
    requires Inv(s) && l < |s.launches| && s.launches[l].stage.Reaping? && !TakenOver(s, l)
    ensures Registered(s.launches, s.registry, l) && s.sweep == {}
    ensures OpenHandle(s.table, s.launches, l) && StageRules(s.launches[l])
  {
  }

  lemma ReleaseKeepsOwners(t: Table, ls: seq<Launch>, l: nat, registry: map<string, nat>, sealing: bool,
                           problem: bool, problem': bool)
    requires Owners(t, ls, registry, {}, sealing, problem) && (problem ==> problem')
    requires l < |ls| && Registered(ls, registry, l) && ls[l].stage.Returned?
    ensures Owners(t, ls[l := Closed(ls[l], true)], registry - {ls[l].name}, {}, sealing, problem')
  {
  }

  lemma ReleaseKeeps(s: Sys, l: nat, escaped: bool, wrote: bool)
    requires Valid(s.table) && Inv(s) && l < |s.launches| && Registered(s.launches, s.registry, l) && s.sweep == {}
    requires OpenHandle(s.table, s.launches, l) && s.launches[l].stage.Returned?
    requires MayReportEmpty(s.launches[l].group, s.table)
    ensures Inv(Settle(s, l, true, wrote).(problem := s.problem || escaped,
                                           registry := s.registry - {s.launches[l].name}))
  {
    assert Phases(s.mode, s.registry - {s.launches[l].name}, s.sweep, s.starting);
    hide Valid, Launches, Owners, Records, Closed, MayReportEmpty, DropRecord, OpenHandle, Phases;
    CloseKeepsLaunches(s.table, s.launches, s.starting, s.mode, l, true);
    CloseKeepsRecords(s.table, s.launches, s.book, l, true, wrote);
    ReleaseKeepsOwners(s.table, s.launches, l, s.registry, s.mode.sealing, s.problem, s.problem || escaped);
  }

  lemma VerifyKeeps(s: Sys, l: nat, empty: bool, escaped: bool, wrote: bool)
    requires Valid(s.table) && Inv(s) && Can(s, Verify(l, empty, escaped, wrote))
    ensures Inv(Do(s, Verify(l, empty, escaped, wrote)))
  {
    var x := s.launches[l];
    assert StageRules(x);
    if !TakenOver(s, l) { VerifyOwnsGroup(s, l); }
    hide Valid, Inv, MayReportEmpty, Settle;
    if TakenOver(s, l) {
      AdvanceKeeps(s, l, x.(stage := HandedOff), s.problem);
    } else {
      AdvanceKeeps(s, l, x.(stage := Returned), s.problem || !empty);
      if empty {
        var s1 := Put(s, l, x.(stage := Returned));
        assert s1.(problem := s.problem) == s1;
        ReleaseKeeps(s1, l, escaped, wrote);
      }
    }
  }

  // ── tracking a launch ───────────────────────────────────────────────────────

  // The launch registered earlier under the name of the one being started.
  lemma Predecessor(s: Sys, l: nat)
    requires Inv(s) && s.starting == Some(l) && l < |s.launches| && s.launches[l].stage.Started?
    requires s.launches[l].leader < |s.table.procs|
    ensures l !in s.sweep && Phases(s.mode, s.registry[s.launches[l].name := l], s.sweep, None)
    ensures s.launches[l].name in s.registry ==>
      var p := s.registry[s.launches[l].name];
      && p != l && OpenHandle(s.table, s.launches, p) && OpenHandle(s.table, Tracked(s, l).launches, p)
      && forall m | 0 <= m < |s.launches| && m != l ::
           Registered(s.launches, s.registry, m) && s.launches[m].name == s.launches[l].name <==> m == p
  {
  }

  lemma TrackKeepsLaunches(s: Sys, l: nat)
    requires Inv(s) && s.starting == Some(l) && l < |s.launches| && s.launches[l].stage.Started?
    requires s.launches[l].leader < |s.table.procs|
    ensures Launches(s.table, Tracked(s, l).launches, None, s.mode)
    ensures Records(s.table, Tracked(s, l).launches, s.book)
  {
    RecordsKept(s.table, s.launches, Tracked(s, l).launches, s.book);
  }

  // Registering a launch in place of an earlier one of its name keeps the ledger,
  // because that one is settled at the same time.
  lemma TrackKeepsOwners(t: Table, ls: seq<Launch>, ls': seq<Launch>, l: nat, registry: map<string, nat>,
                         sweep: set<nat>, sealing: bool, problem: bool, empty: bool)
    requires Owners(t, ls, registry, sweep, sealing, problem)
    requires Names(ls, Some(l)) && l < |ls| && ls[l].stage.Started? && l !in sweep
    requires |ls'| == |ls| && ls[l].leader < |t.procs|
    requires ls'[l] == ls[l].(stage := Running, group := Authority(t.procs[ls[l].leader].pid, false))
    requires forall m | 0 <= m < |ls| && m != l ::
      ls'[m] == if Registered(ls, registry, m) && ls[m].name == ls[l].name then Closed(ls[m], empty) else ls[m]
    ensures Owners(t, ls', registry[ls[l].name := l], sweep, sealing, problem || (ls[l].name in registry && !empty))
  {
  }

  // The recorded pid and start time are read from the unreaped leader itself.
  lemma LeaderEntryIsTrue(t: Table, ls: seq<Launch>, l: nat, x: Launch, statOk: bool)
    requires l < |ls| && Identities(t, ls) && ls[l].HasLeader() && x.leader == ls[l].leader && x.name == ls[l].name
    requires x.leader < |t.procs|
    ensures TrueEntry(t, ls, LeaderEntry(t, l, x, statOk))
  {
    assert Identity(t, ls[l]);
  }

  lemma ReplaceKeeps(s: Sys, l: nat, p: nat, empty: bool, wrote: bool)
    requires Valid(s.table) && Inv(s) && s.starting == Some(l) && l < |s.launches| && s.launches[l].stage.Started?
    requires s.launches[l].leader < |s.table.procs|
    requires s.launches[l].name in s.registry && p == s.registry[s.launches[l].name] && p < |s.launches|
    requires empty ==> MayReportEmpty(s.launches[p].group, s.table)
    ensures p != l && Inv(Settle(Tracked(s, l), p, empty, wrote))
  {
    Predecessor(s, l);
    TrackKeepsLaunches(s, l);
    assert Names(s.launches, Some(l));
    hide Valid, Launches, Owners, Records, Closed, MayReportEmpty, DropRecord, OpenHandle, Phases, Names;
    var s1 := Tracked(s, l);
    CloseKeepsLaunches(s.table, s1.launches, None, s.mode, p, empty);
    CloseKeepsRecords(s.table, s1.launches, s.book, p, empty, wrote);
    TrackKeepsOwners(s.table, s.launches, s1.launches[p := Closed(s1.launches[p], empty)], l, s.registry, s.sweep,
                     s.mode.sealing, s.problem, empty);
  }

  lemma TrackFreshKeeps(s: Sys, l: nat)
    requires Inv(s) && s.starting == Some(l) && l < |s.launches| && s.launches[l].stage.Started?
    requires s.launches[l].leader < |s.table.procs| && s.launches[l].name !in s.registry
    ensures Inv(Tracked(s, l))
  {
    Predecessor(s, l);
    TrackKeepsLaunches(s, l);
    assert Names(s.launches, Some(l));
    hide Launches, Owners, Records, Closed, Phases, Names;
    TrackKeepsOwners(s.table, s.launches, Tracked(s, l).launches, l, s.registry, s.sweep, s.mode.sealing, s.problem, true);
  }

  lemma RecordKeeps(s: Sys, l: nat, x: Launch, statOk: bool, wrote: bool)
    requires Inv(s) && l < |s.launches| && s.launches[l].HasLeader()
    requires x.leader == s.launches[l].leader && x.name == s.launches[l].name && x.leader < |s.table.procs|
    ensures Inv(s.(book := FillRecord(s.book, l, LeaderEntry(s.table, l, x, statOk).group, wrote)))
  {
    LeaderEntryIsTrue(s.table, s.launches, l, x, statOk);
    hide Launches, Owners, Phases, Records, FillRecord, TrueEntry;
    FillKeepsRecords(s.table, s.launches, s.book, l, LeaderEntry(s.table, l, x, statOk).group, wrote);
  }

  lemma TrackKeeps(s: Sys, statOk: bool, prevEmpty: bool, wrotePrev: bool, wrote: bool)
    requires Valid(s.table) && Inv(s) && Can(s, Track(statOk, prevEmpty, wrotePrev, wrote))
    ensures Inv(Do(s, Track(statOk, prevEmpty, wrotePrev, wrote)))
  {
    hide Valid, Inv, FillRecord, DropRecord, MayReportEmpty;
    var l := s.starting.value;
    var x, s1 := s.launches[l], Tracked(s, l);
    if x.name in s.registry {
      var p := s.registry[x.name];
      ReplaceKeeps(s, l, p, prevEmpty, wrotePrev);
      RecordKeeps(Settle(s1, p, prevEmpty, wrotePrev), l, x, statOk, wrote);
    } else {
      TrackFreshKeeps(s, l);
      RecordKeeps(s1, l, x, statOk, wrote);
    }
  }
}
