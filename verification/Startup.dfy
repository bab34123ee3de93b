/**
 Dependency-ordered startup (internal/runner/lifecycle.go: waitForDependency,
 runProcess, waitBeforeRestart, runTaskProcess; internal/runner/runner.go: the
 worker loop) as a state machine over any number of processes.

 Each step is one critical section of a process's state, one branch of its worker,
 or an event from outside: a probe result, an exit, a restart request, a stop.
 Probe results may arrive for any incarnation, however late.
 */
module Startup {
  import opened Graph
  import opened Readiness

  datatype Pc =
    | AtDep(i: nat)                 // takes the current cycle of dependency i
    | Waiting(i: nat, cycle: nat)   // waits for the cycle it took
    | Recheck(i: nat, cycle: nat)   // the cycle ended without a verdict
    | Incarnation(started: bool)    // a service runs, or is about to
    | Exited(clean: bool)           // its process ended; what follows is undecided
    | Restarting                    // a requested restart does not wait
    | Backoff
    | TaskRunning(started: bool)
    | TaskExited(ok: bool)
    | Ending(verdict: Outcome)      // the lifecycle's verdict is about to be published
    | Idle                          // the worker returned; it may be restarted
    | Quiesced                      // the cleanup handoff released the worker

  // `live` holds the incarnations whose context is not cancelled and `begun` those
  // whose command started. The last five fields only record what happened.
  datatype Worker = Worker(pc: Pc, ready: Ready, live: set<nat>, begun: set<nat>,
                           cycleOf: map<nat, nat>, succeeded: set<nat>, failed: set<nat>, ran: bool, exitedZero: bool)
  {
    predicate Finished() { pc in {Idle, Quiesced} }

    predicate Live(gen: nat, cancelled: bool) { gen in live && !cancelled }
  }

  datatype Policy = Always | OnFailure | Never

  datatype Decision = StopNow | RestartNow | RestartLater | GiveUp | End | Fail

  // What becomes of an ended incarnation.
  function AfterExit(clean: bool, stopping: bool, requested: bool, policy: Policy, overLimit: bool,
                     treeUnconfirmed: bool): (d: Decision)
    ensures d.StopNow? <==> stopping
    ensures d.RestartNow? <==> requested && !stopping
    // It runs again by itself exactly when nothing stops it, its policy wants that
    // for such an exit, its limit allows it, and a failed tree is known to be gone.
    ensures d.RestartLater? <==>
      && !stopping && !requested && !overLimit
      && if clean then policy.Always? else !policy.Never? && !treeUnconfirmed
    // It ends as failed exactly for a failure, or for a restart beyond its limit.
    ensures d in {Fail, GiveUp} <==>
      !stopping && !requested && !d.RestartLater? && (!clean || (policy.Always? && overLimit))
    ensures d.GiveUp? <==>
      && !stopping && !requested && overLimit
      && if clean then policy.Always? else !policy.Never? && !treeUnconfirmed
  {
    if stopping then StopNow
    else if requested then RestartNow
    else if clean then
      if policy.Always? then if overLimit then GiveUp else RestartLater
      else End
    else if policy.Never? || treeUnconfirmed then Fail
    else if overLimit then GiveUp
    else RestartLater
  }

  datatype Sys = Sys(workers: map<Name, Worker>, cancelled: bool, stopping: bool, handoff: bool)

  datatype Step =
    | TakeCycle(n: Name)
    | Wake(n: Name)
    | LookAgain(n: Name)
    | CancelWait(n: Name)
    | HandOff(n: Name)
    | Begin(n: Name)
    | Launch(n: Name)
    | MarkReady(n: Name, gen: nat)
    | FailReady(n: Name, gen: nat)
    | Unhealthy(n: Name, gen: nat)
    | CancelIncarnation(n: Name, gen: nat)
    | Return(n: Name, clean: bool)
    | Decide(n: Name, requested: bool, policy: Policy, overLimit: bool, treeUnconfirmed: bool)
    | StopBackoff(n: Name)
    | Publish(n: Name)
    | Rerun(n: Name)
    | Cancel
    | CloseAdmission
    | CloseHandoff

  function Service(g: Procs, n: Name): bool
  {
    n in g && !g[n].task
  }

  // ── one worker's steps ──────────────────────────────────────────────────────

  predicate CanTake(g: Procs, ws: map<Name, Worker>, n: Name)
  {
    n in ws && ws[n].pc.AtDep? && ws[n].pc.i < |Deps(g, n)|
  }

  predicate Waits(g: Procs, ws: map<Name, Worker>, n: Name)
  {
    && n in ws && ws[n].pc.Waiting? && ws[n].pc.i < |Deps(g, n)|
    && Deps(g, n)[ws[n].pc.i] in ws && ws[n].pc.cycle < |ws[Deps(g, n)[ws[n].pc.i]].ready.cycles|
  }

  function WaitedFor(g: Procs, ws: map<Name, Worker>, n: Name): Ready
    requires n in ws && (ws[n].pc.Waiting? || ws[n].pc.Recheck?) && ws[n].pc.i < |Deps(g, n)|
    requires Deps(g, n)[ws[n].pc.i] in ws
  {
    ws[Deps(g, n)[ws[n].pc.i]].ready
  }

  predicate CanBegin(g: Procs, n: Name, w: Worker)
  {
    w.ready.cycles != [] && ((w.pc.AtDep? && w.pc.i == |Deps(g, n)|) || w.pc.Restarting? || w.pc.Backoff?)
  }

  predicate Can(g: Procs, s: Sys, step: Step)
  {
    match step
    case TakeCycle(n) =>
      CanTake(g, s.workers, n)
      && (Deps(g, n)[s.workers[n].pc.i] in s.workers ==> s.workers[Deps(g, n)[s.workers[n].pc.i]].ready.cycles != [])
    case Wake(n) =>
      Waits(g, s.workers, n) && WaitedFor(g, s.workers, n).cycles[s.workers[n].pc.cycle] != Unset
    case LookAgain(n) =>
      && n in s.workers && s.workers[n].pc.Recheck? && s.workers[n].pc.i < |Deps(g, n)|
      && Deps(g, n)[s.workers[n].pc.i] in s.workers && WaitedFor(g, s.workers, n).cycles != []
    case CancelWait(n) => Waits(g, s.workers, n) && s.cancelled
    case HandOff(n) =>
      n in s.workers && s.handoff && (s.workers[n].pc.Waiting? || s.workers[n].pc.Incarnation? || s.workers[n].pc.TaskRunning?)
    case Begin(n) => n in s.workers && CanBegin(g, n, s.workers[n])
    case Launch(n) =>
      && n in s.workers && s.workers[n].pc in {Incarnation(false), TaskRunning(false)} && !s.cancelled && !s.stopping
    case MarkReady(n, gen) => n in s.workers && gen in s.workers[n].begun && s.workers[n].ready.cycles != []
    case FailReady(n, gen) => n in s.workers && gen in s.workers[n].cycleOf && s.workers[n].ready.cycles != []
    case Unhealthy(n, gen) =>
      && n in s.workers && s.workers[n].pc == Incarnation(true) && s.workers[n].Live(gen, s.cancelled)
      && s.workers[n].ready.generation == gen
    case CancelIncarnation(n, gen) => n in s.workers && gen in s.workers[n].live
    case Return(n, clean) =>
      && n in s.workers && (s.workers[n].pc.Incarnation? || s.workers[n].pc.TaskRunning?)
      && (clean ==> s.workers[n].pc.started)
    case Decide(n, _, _, _, _) =>
      n in s.workers && s.workers[n].ready.cycles != [] && (s.workers[n].pc.Exited? || s.workers[n].pc.TaskExited?)
    case StopBackoff(n) => n in s.workers && s.workers[n].pc.Backoff? && s.cancelled
    case Publish(n) =>
      n in s.workers && s.workers[n].pc.Ending? && s.workers[n].ready.cycles != []
    case Rerun(n) =>
      n in s.workers && s.workers[n].pc.Idle? && Service(g, n) && !s.cancelled && s.workers[n].ready.cycles != []
    case Cancel => true
    case CloseAdmission => true
    case CloseHandoff => s.cancelled
  }

  function Taken(ws: map<Name, Worker>, deps: seq<Name>, w: Worker): Worker
    requires w.pc.AtDep? && w.pc.i < |deps| && (deps[w.pc.i] in ws ==> ws[deps[w.pc.i]].ready.cycles != [])
  {
    if deps[w.pc.i] in ws then w.(pc := Waiting(w.pc.i, ws[deps[w.pc.i]].ready.Current()))
    else w.(pc := AtDep(w.pc.i + 1))
  }

  function Relooked(w: Worker, dep: Ready): Worker
    requires w.pc.Recheck? && dep.cycles != []
  {
    if dep.Current() == w.pc.cycle then w.(pc := Ending(Stopped)) else w.(pc := AtDep(w.pc.i))
  }

  // A waiter woken by the cycle it took.
  function Woken(w: Worker, o: Outcome): Worker
    requires w.pc.Waiting?
  {
    match o
    case Satisfied => w.(pc := AtDep(w.pc.i + 1))
    case Again => w.(pc := Recheck(w.pc.i, w.pc.cycle))
    case Terminal => w.(pc := Ending(Terminal))
    case Stopped => w.(pc := Ending(Stopped))
    case Unset => w
  }

  // The next generation: an incarnation of a service, or a task's one run.
  function Begun(service: bool, w: Worker): Worker
    requires w.ready.cycles != []
  {
    if service then
      var ready := w.ready.StartService();
      w.(pc := Incarnation(false), ready := ready, live := w.live + {ready.generation},
         cycleOf := w.cycleOf[ready.generation := ready.Current()])
    else w.(pc := TaskRunning(false), ready := w.ready.StartTask())
  }

  function Launched(w: Worker): Worker
  {
    if w.pc.Incarnation? then w.(pc := Incarnation(true), ran := true, begun := w.begun + {w.ready.generation})
    else w.(pc := TaskRunning(true), ran := true)
  }

  function Marked(w: Worker, gen: nat, cancelled: bool): Worker
    requires w.ready.cycles != []
  {
    var ready := w.ready.MarkReadyFor(w.Live(gen, cancelled), gen, true);
    w.(ready := ready, succeeded := if ready != w.ready then w.succeeded + {gen} else w.succeeded)
  }

  function ReadinessFailed(w: Worker, gen: nat, cancelled: bool): Worker
    requires w.ready.cycles != []
  {
    var live := w.Live(gen, cancelled);
    w.(ready := w.ready.FailReadinessFor(live, gen),
       failed := if w.ready.FailsReadiness(live, gen) then w.failed + {gen} else w.failed)
  }

  function Returned(w: Worker, clean: bool): Worker
  {
    if w.pc.Incarnation? then w.(pc := Exited(clean), live := {})
    else w.(pc := TaskExited(clean), exitedZero := w.exitedZero || clean)
  }

  function Decided(w: Worker, d: Decision): Worker
    requires w.ready.cycles != []
  {
    match d
    case StopNow => w.(pc := Ending(Stopped))
    case RestartNow => w.(pc := Restarting, ready := w.ready.Reset())
    case RestartLater => w.(pc := Backoff, ready := w.ready.Reset())
    case GiveUp => w.(pc := Ending(Terminal))
    case End => w.(pc := Ending(Terminal))
    case Fail => w.(pc := Ending(Terminal))
  }

  // A task that exits 0 is complete and satisfies its dependents.
  function TaskDecided(w: Worker, cancelled: bool): Worker
    requires w.pc.TaskExited? && w.ready.cycles != []
  {
    if cancelled then w.(pc := Ending(Stopped))
    else if w.pc.ok then w.(pc := Idle, ready := w.ready.Settle(Satisfied))
    else w.(pc := Ending(Terminal))
  }

  function After(g: Procs, s: Sys, step: Step): Worker
    requires Can(g, s, step) && !step.Cancel? && !step.CloseAdmission? && !step.CloseHandoff?
  {
    var w := s.workers[step.n];
    match step
    case TakeCycle(n) =>
      Taken(s.workers, Deps(g, n), w)
    case Wake(n) => Woken(w, WaitedFor(g, s.workers, n).cycles[w.pc.cycle])
    case LookAgain(n) =>
      Relooked(w, WaitedFor(g, s.workers, n))
    case CancelWait(n) =>
      w.(pc := Ending(if WaitedFor(g, s.workers, n).disposition.Terminal? then Terminal else Stopped))
    case HandOff(n) => w.(pc := Quiesced, live := {})
    case Begin(n) => Begun(Service(g, n), w)
    case Launch(n) => Launched(w)
    case MarkReady(n, gen) => Marked(w, gen, s.cancelled)
    case FailReady(n, gen) => ReadinessFailed(w, gen, s.cancelled)
    case Unhealthy(n, gen) => w.(ready := w.ready.(probeFailed := true))
    case CancelIncarnation(n, gen) => w.(live := w.live - {gen})
    case Return(n, clean) => Returned(w, clean)
    case Decide(n, requested, policy, overLimit, treeUnconfirmed) =>
      if w.pc.TaskExited? then TaskDecided(w, s.cancelled)
      else
        Decided(w, AfterExit(w.pc.clean && !w.ready.probeFailed, s.cancelled || s.stopping, requested, policy, overLimit,
                             treeUnconfirmed))
    case StopBackoff(n) => w.(pc := Ending(Stopped))
    case Publish(n) => w.(pc := Idle, ready := w.ready.Finish(w.pc.verdict))
    case Rerun(n) => w.(pc := AtDep(0), ready := w.ready.Reset())
  }

  function Do(g: Procs, s: Sys, step: Step): Sys
    requires Can(g, s, step)
  {
    match step
    case Cancel => s.(cancelled := true)
    case CloseAdmission => s.(stopping := true)
    case CloseHandoff => s.(handoff := true)
    case _ => s.(workers := s.workers[step.n := After(g, s, step)])
  }

  const Fresh := Worker(AtDep(0), Ready([Unset], Unset, 0, false), {}, {}, map[], {}, {}, false, false)

  ghost predicate Init(s: Sys)
  {
    !s.cancelled && !s.stopping && !s.handoff && forall n | n in s.workers :: s.workers[n] == Fresh
  }

  // ── invariant ───────────────────────────────────────────────────────────────

  ghost predicate HasSatisfied(r: Ready)
  {
    exists c :: 0 <= c < |r.cycles| && r.cycles[c] == Satisfied
  }

  // Before its run begins a process has an unsettled cycle, whatever it waits for.
  predicate Undecided(pc: Pc)
  {
    pc.AtDep? || pc.Waiting? || pc.Recheck? || pc.Backoff? || pc.Restarting? || pc.TaskRunning? || pc.TaskExited?
  }

  // Past its last dependency.
  predicate Passed(pc: Pc)
  {
    pc.Incarnation? || pc.Exited? || pc.Restarting? || pc.Backoff? || pc.TaskRunning? || pc.TaskExited?
  }

  // What every worker keeps by itself.
  ghost predicate Cycles(w: Worker, handoff: bool)
  {
    && w.ready.Valid()
    && (Undecided(w.pc) ==> !w.ready.Settled())
    && (w.pc.Idle? ==> w.ready.Settled())
    && (w.pc.Quiesced? ==> handoff)
    && (w.pc.Ending? ==> w.pc.verdict in {Terminal, Stopped})
  }

  // The incarnation runs under the current cycle.
  ghost predicate CycleOfGeneration(w: Worker)
  {
    w.ready.generation in w.cycleOf && w.cycleOf[w.ready.generation] == |w.ready.cycles| - 1
  }

  ghost predicate Incarnations(w: Worker, service: bool)
  {
    && (w.live != {} ==> w.pc.Incarnation? && w.live == {w.ready.generation})
    && (w.pc.Incarnation? ==> service && CycleOfGeneration(w))
    && (w.pc.Exited? || w.pc.Backoff? || w.pc.Restarting? ==> service)
    && (w.pc.TaskRunning? || w.pc.TaskExited? ==> !service)
    && (forall k | k in w.cycleOf :: k <= w.ready.generation)
    && (forall k | k in w.begun :: k <= w.ready.generation)
    && (w.pc == Incarnation(false) ==> w.ready.generation !in w.begun)
  }

  ghost predicate Verdicts(w: Worker)
    requires w.ready.cycles != []
  {
    && (forall k | k in w.succeeded || k in w.failed :: k <= w.ready.generation)
    && (forall k :: !(k in w.succeeded && k in w.failed))
    && (w.pc.Incarnation? && w.ready.generation in w.failed ==> w.ready.probeFailed)
    && (w.pc.Incarnation? && w.ready.generation in w.succeeded ==> w.ready.IsReady())
  }

  // Incarnation k ran under cycle c and succeeded.
  ghost predicate Witness(cycleOf: map<nat, nat>, begun: set<nat>, succeeded: set<nat>, c: nat, k: nat)
  {
    k in succeeded && k in begun && k in cycleOf && cycleOf[k] == c
  }

  // A service's cycle was satisfied by an incarnation that ran under it.
  ghost predicate Witnessed(cycles: seq<Outcome>, cycleOf: map<nat, nat>, begun: set<nat>, succeeded: set<nat>)
  {
    forall c: nat | c < |cycles| && cycles[c] == Satisfied :: exists k :: Witness(cycleOf, begun, succeeded, c, k)
  }

  lemma WitnessesStay(w: Worker, w': Worker)
    requires Witnessed(w.ready.cycles, w.cycleOf, w.begun, w.succeeded)
    requires w.begun <= w'.begun && w.succeeded <= w'.succeeded
    requires forall k | k in w.cycleOf :: k in w'.cycleOf && w'.cycleOf[k] == w.cycleOf[k]
    requires forall c | 0 <= c < |w'.ready.cycles| && w'.ready.cycles[c] == Satisfied ::
      (c < |w.ready.cycles| && w.ready.cycles[c] == Satisfied)
      || exists k :: Witness(w'.cycleOf, w'.begun, w'.succeeded, c, k)
    ensures Witnessed(w'.ready.cycles, w'.cycleOf, w'.begun, w'.succeeded)
  {
    forall c: nat | c < |w'.ready.cycles| && w'.ready.cycles[c] == Satisfied
      ensures exists k :: Witness(w'.cycleOf, w'.begun, w'.succeeded, c, k)
    {
      if c < |w.ready.cycles| && w.ready.cycles[c] == Satisfied {
        var k :| Witness(w.cycleOf, w.begun, w.succeeded, c, k);
        assert Witness(w'.cycleOf, w'.begun, w'.succeeded, c, k);
      }
    }
  }

  ghost predicate Runs(w: Worker, service: bool)
  {
    && (HasSatisfied(w.ready) ==> w.ran && (!service ==> w.exitedZero))
    && (w.begun != {} ==> w.ran)
    && (w.pc.TaskRunning? && w.pc.started ==> w.ran)
    && (w.pc == TaskExited(true) ==> w.ran && w.exitedZero)
  }

  ghost predicate Local(w: Worker, service: bool, handoff: bool)
  {
    Cycles(w, handoff) && (w.ready.Valid() ==> Incarnations(w, service) && Verdicts(w)) && Runs(w, service)
    && (service ==> Witnessed(w.ready.cycles, w.cycleOf, w.begun, w.succeeded))
  }

  // Dependencies before the one being waited for were satisfied; all were, once
  // the process ever ran.
  ghost predicate Ordered(ws: map<Name, Worker>, deps: seq<Name>, w: Worker)
  {
    && (w.pc.AtDep? || w.pc.Waiting? || w.pc.Recheck? ==> w.pc.i <= |deps| && SatisfiedUpTo(ws, deps, w.pc.i))
    && (Passed(w.pc) || w.ran ==> SatisfiedUpTo(ws, deps, |deps|))
    && (w.pc.Waiting? || w.pc.Recheck? ==>
          w.pc.i < |deps| && deps[w.pc.i] in ws && w.pc.cycle < |ws[deps[w.pc.i]].ready.cycles|)
    && (w.pc.Recheck? ==> ws[deps[w.pc.i]].ready.cycles[w.pc.cycle] == Again)
  }

  ghost predicate SatisfiedUpTo(ws: map<Name, Worker>, deps: seq<Name>, k: nat)
    requires k <= |deps|
  {
    forall j | 0 <= j < k && deps[j] in ws :: HasSatisfied(ws[deps[j]].ready)
  }

  ghost predicate Ok(ws: map<Name, Worker>, deps: seq<Name>, service: bool, handoff: bool, w: Worker)
  {
    Local(w, service, handoff) && Ordered(ws, deps, w)
  }

  ghost predicate Inv(g: Procs, s: Sys)
  {
    forall n | n in s.workers :: Ok(s.workers, Deps(g, n), Service(g, n), s.handoff, s.workers[n])
  }

  lemma FreshIsOk(ws: map<Name, Worker>, deps: seq<Name>, service: bool)
    ensures Ok(ws, deps, service, false, Fresh)
  {
  }

  lemma InitInv(g: Procs, s: Sys)
    requires Init(s)
    ensures Inv(g, s)
  {
    hide Ok;
    forall n | n in s.workers
      ensures Ok(s.workers, Deps(g, n), Service(g, n), s.handoff, s.workers[n])
    {
      FreshIsOk(s.workers, Deps(g, n), Service(g, n));
    }
  }

  // ── one worker's step ───────────────────────────────────────────────────────

  // A worker's new state is sound, and it publishes without retracting.
  ghost predicate Sound(ws: map<Name, Worker>, deps: seq<Name>, service: bool, handoff: bool, w: Worker, w': Worker)
  {
    Ok(ws, deps, service, handoff, w') && Progresses(w.ready, w'.ready)
  }

  lemma SatisfiedStays(r: Ready, r': Ready)
    requires HasSatisfied(r) && Progresses(r, r')
    ensures HasSatisfied(r')
  {
    var c :| 0 <= c < |r.cycles| && r.cycles[c] == Satisfied;
    assert r'.cycles[c] == Satisfied;
  }

  lemma OrderedStays(ws: map<Name, Worker>, ws': map<Name, Worker>, deps: seq<Name>, w: Worker)
    requires Ordered(ws, deps, w) && ws'.Keys == ws.Keys
    requires forall m | m in ws :: Progresses(ws[m].ready, ws'[m].ready)
    ensures Ordered(ws', deps, w)
  {
    forall j | 0 <= j < |deps| && deps[j] in ws && HasSatisfied(ws[deps[j]].ready)
      ensures HasSatisfied(ws'[deps[j]].ready)
    {
      SatisfiedStays(ws[deps[j]].ready, ws'[deps[j]].ready);
    }
  }

  lemma UpdateKeeps(g: Procs, s: Sys, n: Name, w': Worker)
    requires Inv(g, s) && n in s.workers
    requires Sound(s.workers, Deps(g, n), Service(g, n), s.handoff, s.workers[n], w')
    ensures Inv(g, s.(workers := s.workers[n := w']))
  {
    var ws' := s.workers[n := w'];
    assert ws'.Keys == s.workers.Keys;
    hide Local, Ordered;
    forall m | m in ws'
      ensures Ok(ws', Deps(g, m), Service(g, m), s.handoff, ws'[m])
    {
      OrderedStays(s.workers, ws', Deps(g, m), ws'[m]);
    }
  }

  lemma TakenIsSound(ws: map<Name, Worker>, deps: seq<Name>, service: bool, handoff: bool, w: Worker)
    requires Ok(ws, deps, service, handoff, w) && w.pc.AtDep? && w.pc.i < |deps|
    requires deps[w.pc.i] in ws ==> ws[deps[w.pc.i]].ready.Valid()
    ensures Sound(ws, deps, service, handoff, w, Taken(ws, deps, w))
  {
  }

  lemma WokenIsSound(ws: map<Name, Worker>, deps: seq<Name>, service: bool, handoff: bool, w: Worker)
    requires Ok(ws, deps, service, handoff, w) && w.pc.Waiting? && ws[deps[w.pc.i]].ready.cycles[w.pc.cycle] != Unset
    ensures Sound(ws, deps, service, handoff, w, Woken(w, ws[deps[w.pc.i]].ready.cycles[w.pc.cycle]))
  {
  }

  // A cycle that ended without a verdict was replaced in the same step, so the
  // waiter finds a later one and is never left behind.
  lemma RelookedIsSound(ws: map<Name, Worker>, deps: seq<Name>, service: bool, handoff: bool, w: Worker)
    requires Ok(ws, deps, service, handoff, w) && w.pc.Recheck? && ws[deps[w.pc.i]].ready.Valid()
    ensures Sound(ws, deps, service, handoff, w, Relooked(w, ws[deps[w.pc.i]].ready))
    ensures Relooked(w, ws[deps[w.pc.i]].ready).pc == AtDep(w.pc.i)
  {
  }

  lemma EndingIsSound(ws: map<Name, Worker>, deps: seq<Name>, service: bool, handoff: bool, w: Worker, o: Outcome)
    requires Ok(ws, deps, service, handoff, w) && o in {Terminal, Stopped} && !w.pc.Incarnation?
    ensures Sound(ws, deps, service, handoff, w, w.(pc := Ending(o)))
  {
  }

  lemma QuiescedIsSound(ws: map<Name, Worker>, deps: seq<Name>, service: bool, w: Worker)
    requires Ok(ws, deps, service, true, w)
    ensures Sound(ws, deps, service, true, w, w.(pc := Quiesced, live := {}))
  {
  }

  lemma BegunIsSound(ws: map<Name, Worker>, deps: seq<Name>, service: bool, handoff: bool, w: Worker)
    requires Ok(ws, deps, service, handoff, w)
    requires (w.pc.AtDep? && w.pc.i == |deps|) || w.pc.Restarting? || w.pc.Backoff?
    ensures Sound(ws, deps, service, handoff, w, Begun(service, w))
  {
    if service { WitnessesStay(w, Begun(service, w)); }
  }

  lemma LaunchedIsSound(ws: map<Name, Worker>, deps: seq<Name>, service: bool, handoff: bool, w: Worker)
    requires Ok(ws, deps, service, handoff, w) && w.pc in {Incarnation(false), TaskRunning(false)}
    ensures Sound(ws, deps, service, handoff, w, Launched(w))
  {
    if service { WitnessesStay(w, Launched(w)); }
  }

  // Only the running incarnation's own cycle can be satisfied by a probe, and not
  // once that incarnation failed readiness.
  lemma MarkedIsSound(ws: map<Name, Worker>, deps: seq<Name>, service: bool, handoff: bool, w: Worker, gen: nat,
                      cancelled: bool)
    requires Ok(ws, deps, service, handoff, w) && gen in w.begun
    ensures Sound(ws, deps, service, handoff, w, Marked(w, gen, cancelled))
    ensures Marked(w, gen, cancelled).ready != w.ready ==>
      && w.pc.Incarnation? && gen == w.ready.generation && gen in w.cycleOf && w.cycleOf[gen] == w.ready.Current()
      && gen !in w.failed
  {
    var w' := Marked(w, gen, cancelled);
    if w'.ready != w.ready {
      assert Witness(w'.cycleOf, w'.begun, w'.succeeded, w.ready.Current(), gen);
      WitnessesStay(w, w');
    }
  }

  lemma ReadinessFailedIsSound(ws: map<Name, Worker>, deps: seq<Name>, service: bool, handoff: bool, w: Worker,
                               gen: nat, cancelled: bool)
    requires Ok(ws, deps, service, handoff, w) && gen in w.cycleOf
    ensures Sound(ws, deps, service, handoff, w, ReadinessFailed(w, gen, cancelled))
  {
  }

  lemma UnhealthyIsSound(ws: map<Name, Worker>, deps: seq<Name>, service: bool, handoff: bool, w: Worker)
    requires Ok(ws, deps, service, handoff, w) && w.pc.Incarnation?
    ensures Sound(ws, deps, service, handoff, w, w.(ready := w.ready.(probeFailed := true)))
  {
  }

  lemma CancelledIsSound(ws: map<Name, Worker>, deps: seq<Name>, service: bool, handoff: bool, w: Worker, gen: nat)
    requires Ok(ws, deps, service, handoff, w) && gen in w.live
    ensures Sound(ws, deps, service, handoff, w, w.(live := w.live - {gen}))
  {
  }

  lemma ReturnedIsSound(ws: map<Name, Worker>, deps: seq<Name>, service: bool, handoff: bool, w: Worker, clean: bool)
    requires Ok(ws, deps, service, handoff, w) && (w.pc.Incarnation? || w.pc.TaskRunning?) && (clean ==> w.pc.started)
    ensures Sound(ws, deps, service, handoff, w, Returned(w, clean))
  {
  }

  lemma DecidedIsSound(ws: map<Name, Worker>, deps: seq<Name>, service: bool, handoff: bool, w: Worker, d: Decision)
    requires Ok(ws, deps, service, handoff, w) && w.pc.Exited?
    ensures Sound(ws, deps, service, handoff, w, Decided(w, d))
  {
  }

  lemma TaskDecidedIsSound(ws: map<Name, Worker>, deps: seq<Name>, service: bool, handoff: bool, w: Worker,
                           cancelled: bool)
    requires Ok(ws, deps, service, handoff, w) && w.pc.TaskExited?
    ensures Sound(ws, deps, service, handoff, w, TaskDecided(w, cancelled))
  {
  }

  lemma PublishedIsSound(ws: map<Name, Worker>, deps: seq<Name>, service: bool, handoff: bool, w: Worker)
    requires Ok(ws, deps, service, handoff, w) && w.pc.Ending?
    ensures Sound(ws, deps, service, handoff, w, w.(pc := Idle, ready := w.ready.Finish(w.pc.verdict)))
  {
  }

  lemma RerunIsSound(ws: map<Name, Worker>, deps: seq<Name>, service: bool, handoff: bool, w: Worker)
    requires Ok(ws, deps, service, handoff, w) && w.pc.Idle? && service
    ensures Sound(ws, deps, service, handoff, w, w.(pc := AtDep(0), ready := w.ready.Reset()))
  {
  }

  // ── whole runs ──────────────────────────────────────────────────────────────

  ghost predicate Moves(step: Step)
  {
    !step.Cancel? && !step.CloseAdmission? && !step.CloseHandoff?
  }

  lemma WaitingIsSound(g: Procs, s: Sys, step: Step)
    requires Inv(g, s) && Can(g, s, step)
    requires step.TakeCycle? || step.Wake? || step.LookAgain? || step.CancelWait?
    ensures Sound(s.workers, Deps(g, step.n), Service(g, step.n), s.handoff, s.workers[step.n], After(g, s, step))
  {
    var n, ws, deps, service := step.n, s.workers, Deps(g, step.n), Service(g, step.n);
    var w := ws[n];
    var i := if w.pc.AtDep? || w.pc.Waiting? || w.pc.Recheck? then w.pc.i else 0;
    assert Ok(ws, deps, service, s.handoff, w);
    assert deps[i] in ws ==> Ok(ws, Deps(g, deps[i]), Service(g, deps[i]), s.handoff, ws[deps[i]]);
    assert deps[i] in ws ==> ws[deps[i]].ready.Valid();
    hide Inv, Ok, Sound, Taken, Relooked, Woken;
    match step
    case TakeCycle(_) => TakenIsSound(ws, deps, service, s.handoff, w);
    case Wake(_) => WokenIsSound(ws, deps, service, s.handoff, w);
    case LookAgain(_) => RelookedIsSound(ws, deps, service, s.handoff, w);
    case CancelWait(_) =>
      EndingIsSound(ws, deps, service, s.handoff, w,
                    if WaitedFor(g, s.workers, n).disposition.Terminal? then Terminal else Stopped);
  }

  lemma LaunchIsSound(g: Procs, s: Sys, step: Step)
    requires Inv(g, s) && Can(g, s, step) && (step.Begin? || step.Launch? || step.CancelIncarnation?)
    ensures Sound(s.workers, Deps(g, step.n), Service(g, step.n), s.handoff, s.workers[step.n], After(g, s, step))
  {
    var n, ws, deps, service := step.n, s.workers, Deps(g, step.n), Service(g, step.n);
    var w := ws[n];
    assert Ok(ws, deps, service, s.handoff, w);
    hide Inv, Ok, Sound, Begun, Launched;
    match step
    case Begin(_) => BegunIsSound(ws, deps, service, s.handoff, w);
    case Launch(_) => LaunchedIsSound(ws, deps, service, s.handoff, w);
    case CancelIncarnation(_, gen) => CancelledIsSound(ws, deps, service, s.handoff, w, gen);
  }

  lemma ProbeIsSound(g: Procs, s: Sys, step: Step)
    requires Inv(g, s) && Can(g, s, step) && (step.MarkReady? || step.FailReady? || step.Unhealthy?)
    ensures Sound(s.workers, Deps(g, step.n), Service(g, step.n), s.handoff, s.workers[step.n], After(g, s, step))
  {
    var n, ws, deps, service := step.n, s.workers, Deps(g, step.n), Service(g, step.n);
    var w := ws[n];
    assert Ok(ws, deps, service, s.handoff, w);
    hide Inv, Ok, Sound, Marked, ReadinessFailed;
    match step
    case MarkReady(_, gen) => MarkedIsSound(ws, deps, service, s.handoff, w, gen, s.cancelled);
    case FailReady(_, gen) => ReadinessFailedIsSound(ws, deps, service, s.handoff, w, gen, s.cancelled);
    case Unhealthy(_, _) => UnhealthyIsSound(ws, deps, service, s.handoff, w);
  }

  lemma ExitIsSound(g: Procs, s: Sys, step: Step)
    requires Inv(g, s) && Can(g, s, step) && (step.Return? || step.Decide?)
    ensures Sound(s.workers, Deps(g, step.n), Service(g, step.n), s.handoff, s.workers[step.n], After(g, s, step))
  {
    var n, ws, deps, service := step.n, s.workers, Deps(g, step.n), Service(g, step.n);
    var w := ws[n];
    assert Ok(ws, deps, service, s.handoff, w);
    hide Inv, Ok, Sound, Returned, Decided, TaskDecided, AfterExit;
    match step
    case Return(_, clean) => ReturnedIsSound(ws, deps, service, s.handoff, w, clean);
    case Decide(_, requested, policy, overLimit, treeUnconfirmed) =>
      if w.pc.TaskExited? {
        TaskDecidedIsSound(ws, deps, service, s.handoff, w, s.cancelled);
      } else {
        DecidedIsSound(ws, deps, service, s.handoff, w,
                       AfterExit(w.pc.clean && !w.ready.probeFailed, s.cancelled || s.stopping, requested, policy,
                                 overLimit, treeUnconfirmed));
      }
  }

  lemma ReleaseIsSound(g: Procs, s: Sys, step: Step)
    requires Inv(g, s) && Can(g, s, step) && (step.HandOff? || step.StopBackoff?)
    ensures Sound(s.workers, Deps(g, step.n), Service(g, step.n), s.handoff, s.workers[step.n], After(g, s, step))
  {
    var n, ws, deps, service := step.n, s.workers, Deps(g, step.n), Service(g, step.n);
    var w := ws[n];
    assert Ok(ws, deps, service, s.handoff, w);
    hide Inv, Ok, Sound;
    match step
    case HandOff(_) => QuiescedIsSound(ws, deps, service, w);
    case StopBackoff(_) => EndingIsSound(ws, deps, service, s.handoff, w, Stopped);
  }

  lemma CycleIsSound(g: Procs, s: Sys, step: Step)
    requires Inv(g, s) && Can(g, s, step) && (step.Publish? || step.Rerun?)
    ensures Sound(s.workers, Deps(g, step.n), Service(g, step.n), s.handoff, s.workers[step.n], After(g, s, step))
  {
    var n, ws, deps, service := step.n, s.workers, Deps(g, step.n), Service(g, step.n);
    var w := ws[n];
    assert Ok(ws, deps, service, s.handoff, w);
    hide Inv, Ok, Sound;
    match step
    case Publish(_) => PublishedIsSound(ws, deps, service, s.handoff, w);
    case Rerun(_) => RerunIsSound(ws, deps, service, s.handoff, w);
  }

  lemma StepIsSound(g: Procs, s: Sys, step: Step)
    requires Inv(g, s) && Can(g, s, step) && Moves(step)
    ensures Sound(s.workers, Deps(g, step.n), Service(g, step.n), s.handoff, s.workers[step.n], After(g, s, step))
  {
    hide Inv, Sound, After, Can;
    if step.TakeCycle? || step.Wake? || step.LookAgain? || step.CancelWait? {
      WaitingIsSound(g, s, step);
    } else if step.Begin? || step.Launch? || step.CancelIncarnation? {
      LaunchIsSound(g, s, step);
    } else if step.MarkReady? || step.FailReady? || step.Unhealthy? {
      ProbeIsSound(g, s, step);
    } else if step.Return? || step.Decide? {
      ExitIsSound(g, s, step);
    } else if step.HandOff? || step.StopBackoff? {
      ReleaseIsSound(g, s, step);
    } else {
      CycleIsSound(g, s, step);
    }
  }

  lemma HandoffOk(ws: map<Name, Worker>, deps: seq<Name>, service: bool, handoff: bool, w: Worker)
    requires Ok(ws, deps, service, handoff, w)
    ensures Ok(ws, deps, service, true, w)
  {
  }

  lemma StepKeeps(g: Procs, s: Sys, step: Step)
    requires Inv(g, s) && Can(g, s, step)
    ensures Inv(g, Do(g, s, step))
  {
    assert Moves(step) ==> step.n in s.workers;
    hide Inv, Ok, Sound, Can, After;
    if Moves(step) {
      StepIsSound(g, s, step);
      UpdateKeeps(g, s, step.n, After(g, s, step));
    } else {
      FlagKeeps(g, s, Do(g, s, step));
    }
  }

  lemma FlagKeeps(g: Procs, s: Sys, s': Sys)
    requires Inv(g, s) && s'.workers == s.workers && (s.handoff ==> s'.handoff)
    ensures Inv(g, s')
  {
    hide Ok;
    forall n | n in s.workers
      ensures Ok(s.workers, Deps(g, n), Service(g, n), s'.handoff, s.workers[n])
    {
      HandoffOk(s.workers, Deps(g, n), Service(g, n), s.handoff, s.workers[n]);
    }
  }

  ghost predicate SysNext(g: Procs, s: Sys, s': Sys)
  {
    exists step :: Can(g, s, step) && s' == Do(g, s, step)
  }

  ghost predicate Run(g: Procs, run: seq<Sys>)
  {
    run != [] && Init(run[0]) && forall i | 0 <= i < |run| - 1 :: SysNext(g, run[i], run[i + 1])
  }

  lemma {:induction false} RunKeeps(g: Procs, run: seq<Sys>, i: nat)
    requires Run(g, run) && i < |run|
    ensures Inv(g, run[i])
  {
    if i == 0 {
      InitInv(g, run[0]);
    } else {
      RunKeeps(g, run, i - 1);
      assert SysNext(g, run[i - 1], run[i]);
      hide Inv, Can, Do;
      var step :| Can(g, run[i - 1], step) && run[i] == Do(g, run[i - 1], step);
      StepKeeps(g, run[i - 1], step);
    }
  }

  // ── readiness over whole runs ───────────────────────────────────────────────

  ghost predicate Outcomes(s: Sys, s': Sys)
  {
    s'.workers.Keys == s.workers.Keys && forall n | n in s.workers :: Progresses(s.workers[n].ready, s'.workers[n].ready)
  }

  lemma StepProgresses(g: Procs, s: Sys, step: Step)
    requires Inv(g, s) && Can(g, s, step)
    ensures Outcomes(s, Do(g, s, step))
  {
    assert Moves(step) ==> step.n in s.workers;
    hide Inv, Ok, After, Outcomes, Can, Progresses;
    if Moves(step) {
      StepIsSound(g, s, step);
      Published(s, step.n, After(g, s, step));
    } else {
      OutcomesSame(s, Do(g, s, step));
    }
  }

  lemma Published(s: Sys, n: Name, w': Worker)
    requires n in s.workers && Progresses(s.workers[n].ready, w'.ready)
    ensures Outcomes(s, s.(workers := s.workers[n := w']))
  {
    assert s.workers[n := w'].Keys == s.workers.Keys;
  }

  lemma OutcomesSame(s: Sys, s': Sys)
    requires s'.workers == s.workers
    ensures Outcomes(s, s')
  {
  }

  // Cycles are never lost and a published outcome never changes, whatever late
  // probes, restarts, failures and stops arrive.
  lemma {:induction false} OutcomesStay(g: Procs, run: seq<Sys>, i: nat, j: nat)
    requires Run(g, run) && i <= j < |run|
    ensures Outcomes(run[i], run[j])
    decreases j
  {
    hide Inv, Outcomes, SysNext, Init;
    if i == j {
      OutcomesSame(run[i], run[i]);
    } else {
      OutcomesStay(g, run, i, j - 1);
      RunKeeps(g, run, j - 1);
      assert SysNext(g, run[j - 1], run[j]);
      OutcomesGrow(g, run[i], run[j - 1], run[j]);
    }
  }

  lemma OutcomesGrow(g: Procs, a: Sys, b: Sys, c: Sys)
    requires Inv(g, b) && SysNext(g, b, c) && Outcomes(a, b)
    ensures Outcomes(a, c)
  {
    hide Inv, Can, Do;
    var step :| Can(g, b, step) && c == Do(g, b, step);
    StepProgresses(g, b, step);
  }

  // A satisfied cycle of a service was satisfied by an incarnation that ran under
  // that very cycle and never failed readiness; for each generation success and
  // failure exclude each other.
  lemma SatisfiedByOwnIncarnation(g: Procs, run: seq<Sys>, i: nat, n: Name, c: nat)
    requires Run(g, run) && i < |run| && n in run[i].workers && Service(g, n)
    requires c < |run[i].workers[n].ready.cycles| && run[i].workers[n].ready.cycles[c] == Satisfied
    ensures var w := run[i].workers[n];
      exists k :: k in w.begun && k in w.succeeded && k !in w.failed && k in w.cycleOf && w.cycleOf[k] == c
  {
    RunKeeps(g, run, i);
    var w := run[i].workers[n];
    assert Ok(run[i].workers, Deps(g, n), true, run[i].handoff, w);
    var k :| Witness(w.cycleOf, w.begun, w.succeeded, c, k);
    assert k !in w.failed;
  }

  // ── start ordering ──────────────────────────────────────────────────────────

  // What a process that ever ran may rely on, for each dependency down the chain.
  ghost predicate Delivered(g: Procs, w: Worker, n: Name)
  {
    HasSatisfied(w.ready) && w.ran && (!Service(g, n) ==> w.exitedZero)
  }

  // Whenever a process has started its command, everything it depends on, along
  // any path, had started and was satisfied before, and every task on the path had
  // exited 0.
  lemma {:induction false} StartedAfterDependencies(g: Procs, run: seq<Sys>, i: nat, path: seq<Name>, k: nat)
    requires Run(g, run) && i < |run| && Path(g, path) && 0 < k < |path|
    requires forall j | 0 <= j < |path| :: path[j] in run[i].workers
    requires run[i].workers[path[0]].ran
    ensures Delivered(g, run[i].workers[path[k]], path[k])
  {
    RunKeeps(g, run, i);
    var s := run[i];
    if k > 1 { StartedAfterDependencies(g, run, i, path, k - 1); }
    var n, d := path[k - 1], path[k];
    assert d in Deps(g, n);
    var j :| 0 <= j < |Deps(g, n)| && Deps(g, n)[j] == d;
    assert Ok(s.workers, Deps(g, n), Service(g, n), s.handoff, s.workers[n]);
    assert Ok(s.workers, Deps(g, d), Service(g, d), s.handoff, s.workers[d]);
    assert HasSatisfied(s.workers[d].ready);
  }

  // ── deadlock freedom ────────────────────────────────────────────────────────

  // Nothing ends the wait: no stop, no handoff, and the cycle is unsettled.
  ghost predicate Blocked(g: Procs, s: Sys, n: Name)
  {
    && Waits(g, s.workers, n) && !s.cancelled && !s.handoff
    && WaitedFor(g, s.workers, n).cycles[s.workers[n].pc.cycle] == Unset
  }

  // A blocked worker waits for the current cycle of a process that has not
  // finished: whoever finishes settles its current cycle, and no other cycle is
  // unsettled.
  lemma BlockedOnUnfinished(g: Procs, s: Sys, n: Name)
    requires Inv(g, s) && Blocked(g, s, n)
    ensures var d := Deps(g, n)[s.workers[n].pc.i];
      d in s.workers && !s.workers[d].Finished() && s.workers[n].pc.cycle == |s.workers[d].ready.cycles| - 1
  {
    var d := Deps(g, n)[s.workers[n].pc.i];
    assert Ok(s.workers, Deps(g, d), Service(g, d), s.handoff, s.workers[d]);
  }

  lemma {:induction false} FindsMover(g: Procs, rank: map<Name, nat>, s: Sys, n: Name) returns (m: Name)
    requires Inv(g, s) && Ranked(g, rank) && n in s.workers && n in g && !s.workers[n].Finished()
    requires forall k | k in s.workers :: k in g
    ensures m in s.workers && !s.workers[m].Finished() && !Blocked(g, s, m)
    decreases rank[n]
  {
    if Blocked(g, s, n) {
      BlockedOnUnfinished(g, s, n);
      hide Inv;
      var d := Deps(g, n)[s.workers[n].pc.i];
      assert d in g[n].deps;
      m := FindsMover(g, rank, s, d);
    } else {
      m := n;
    }
  }

  // An unfinished worker that is not blocked has a step of its own to take.
  lemma MoverMoves(g: Procs, s: Sys, n: Name) returns (step: Step)
    requires Inv(g, s) && n in s.workers && !s.workers[n].Finished() && !Blocked(g, s, n)
    ensures Moves(step) && step.n == n && Can(g, s, step)
  {
    var w := s.workers[n];
    assert Ok(s.workers, Deps(g, n), Service(g, n), s.handoff, w);
    match w.pc
    case AtDep(i) =>
      if i == |Deps(g, n)| { step := Begin(n); } else {
        step := TakeCycle(n);
        var d := Deps(g, n)[i];
        assert d in s.workers ==> Ok(s.workers, Deps(g, d), Service(g, d), s.handoff, s.workers[d]);
      }
    case Waiting(i, c) =>
      if WaitedFor(g, s.workers, n).cycles[c] != Unset { step := Wake(n); }
      else if s.cancelled { step := CancelWait(n); }
      else { step := HandOff(n); }
    case Recheck(i, c) =>
      step := LookAgain(n);
      var d := Deps(g, n)[i];
      assert Ok(s.workers, Deps(g, d), Service(g, d), s.handoff, s.workers[d]);
    case Incarnation(_) => step := Return(n, false);
    case TaskRunning(_) => step := Return(n, false);
    case Exited(_) => step := Decide(n, false, Never, false, false);
    case TaskExited(_) => step := Decide(n, false, Never, false, false);
    case Restarting => step := Begin(n);
    case Backoff => step := Begin(n);
    case Ending(_) => step := Publish(n);
  }

  // Over an acyclic graph no reachable state leaves every unfinished process
  // waiting for another: some unfinished process can always move.
  lemma NoDeadlock(g: Procs, rank: map<Name, nat>, run: seq<Sys>, i: nat, n: Name) returns (m: Name, step: Step)
    requires Ranked(g, rank) && Run(g, run) && i < |run|
    requires forall k | k in run[i].workers :: k in g
    requires n in run[i].workers && !run[i].workers[n].Finished()
    ensures m in run[i].workers && !run[i].workers[m].Finished() && !Blocked(g, run[i], m)
    ensures Moves(step) && step.n == m && Can(g, run[i], step)
  {
    RunKeeps(g, run, i);
    hide Inv, Can, Blocked;
    m := FindsMover(g, rank, run[i], n);
    step := MoverMoves(g, run[i], m);
  }

  // ── a whole stack ───────────────────────────────────────────────────────────

  // A run of the stack over the selected processes.
  ghost predicate StackRun(g: Procs, selected: seq<Name>, run: seq<Sys>)
  {
    Run(g, run) && forall n :: n in run[0].workers <==> n in selected
  }

  ghost predicate MovesOn(g: Procs, s: Sys, step: Step)
  {
    Moves(step) && Can(g, s, step) && step.n in s.workers && !s.workers[step.n].Finished() && !Blocked(g, s, step.n)
  }

  ghost predicate NeverStuck(g: Procs, run: seq<Sys>)
  {
    forall i, n | 0 <= i < |run| && n in run[i].workers && !run[i].workers[n].Finished() ::
      exists step :: MovesOn(g, run[i], step)
  }

  ghost predicate StartsInOrder(g: Procs, run: seq<Sys>)
  {
    forall i, path: seq<Name>, k | 0 <= i < |run| && 0 < k < |path| && Path(g, path)
                                   && path[0] in run[i].workers && run[i].workers[path[0]].ran ::
      path[k] in run[i].workers && Delivered(g, run[i].workers[path[k]], path[k])
  }

  lemma WorkersStay(g: Procs, run: seq<Sys>, i: nat)
    requires Run(g, run) && i < |run|
    ensures run[i].workers.Keys == run[0].workers.Keys
  {
    OutcomesStay(g, run, 0, i);
  }

  lemma StackNeverStuck(g: Procs, rank: map<Name, nat>, selected: seq<Name>, run: seq<Sys>)
    requires Ranked(g, rank) && StackRun(g, selected, run) && forall n | n in selected :: n in g
    ensures NeverStuck(g, run)
  {
    hide Run, Ranked, Can, Blocked;
    forall i, n | 0 <= i < |run| && n in run[i].workers && !run[i].workers[n].Finished()
      ensures exists step :: MovesOn(g, run[i], step)
    {
      WorkersStay(g, run, i);
      var m, step := NoDeadlock(g, rank, run, i, n);
      assert MovesOn(g, run[i], step);
    }
  }

  lemma {:induction false} PathStaysSelected(g: Procs, selected: seq<Name>, path: seq<Name>, k: nat)
    requires Path(g, path) && k < |path| && path[0] in selected
    requires forall n | n in selected :: n in g && forall d | d in g[n].deps :: d in selected
    ensures path[k] in selected
  {
    if k > 0 {
      PathStaysSelected(g, selected, path, k - 1);
      assert path[k] in Deps(g, path[k - 1]);
    }
  }

  lemma StackStartsInOrder(g: Procs, selected: seq<Name>, run: seq<Sys>)
    requires StackRun(g, selected, run)
    requires forall n | n in selected :: n in g && forall d | d in g[n].deps :: d in selected
    ensures StartsInOrder(g, run)
  {
    hide Run, Path, Delivered;
    forall i, path: seq<Name>, k | 0 <= i < |run| && 0 < k < |path| && Path(g, path)
                                   && path[0] in run[i].workers && run[i].workers[path[0]].ran
      ensures path[k] in run[i].workers && Delivered(g, run[i].workers[path[k]], path[k])
    {
      WorkersStay(g, run, i);
      forall j | 0 <= j < |path|
        ensures path[j] in run[i].workers
      {
        PathStaysSelected(g, selected, path, j);
      }
      StartedAfterDependencies(g, run, i, path, k);
    }
  }

  // Some run brings every selected process up.
  ghost predicate CanComeUp(g: Procs, selected: seq<Name>)
  {
    exists run :: StackRun(g, selected, run) && AllUp(g, selected, run[|run| - 1])
  }

  ghost predicate AllUp(g: Procs, selected: seq<Name>, s: Sys)
  {
    forall n | n in selected :: n in s.workers && Delivered(g, s.workers[n], n)
  }

  lemma UpIsReachable(g: Procs, selected: seq<Name>, run: seq<Sys>)
    requires StackRun(g, selected, run) && AllUp(g, selected, run[|run| - 1])
    ensures CanComeUp(g, selected)
  {
  }

  // Loads a configuration and selects what to run. Of any configuration that is
  // accepted, every selection can come up, and every run of it starts in dependency
  // order and never comes to a state in which all unfinished processes wait for one
  // another.
  method LoadAndSelect(g: Procs, names: seq<Name>, filter: seq<Name>) returns (r: Checked, selected: seq<Name>)
    requires (forall n :: n in g <==> n in names) && Distinct(names)
    ensures r.Sound? <==> Closed(g) && Acyclic(g)
    ensures r.Sound? ==> forall run | StackRun(g, selected, run) :: NeverStuck(g, run) && StartsInOrder(g, run)
    ensures r.Sound? ==> CanComeUp(g, selected)
  {
    hide CanComeUp, Closed, Acyclic, Ranked, ClosureOf, StackRun, NeverStuck, StartsInOrder;
    ghost var rank, closure;
    r, rank := CheckDependencies(g, names);
    selected, closure := SelectedNames(g, names, filter);
    if r.Sound? {
      SelectedClosed(g, if filter == [] then g.Keys else (set n | n in filter), closure, selected);
      forall run | StackRun(g, selected, run)
        ensures NeverStuck(g, run) && StartsInOrder(g, run)
      {
        StackNeverStuck(g, rank, selected, run);
        StackStartsInOrder(g, selected, run);
      }
      ghost var run := StackComesUp(g, rank, selected);
      UpIsReachable(g, selected, run);
    }
  }

  // ── what a stack can come to ────────────────────────────────────────────────

  // A restart, at once or after its backoff, leads to the next incarnation under a
  // cycle of its own.
  lemma RestartLeadsOn(g: Procs, s: Sys, n: Name, requested: bool, policy: Policy, overLimit: bool, treeUnconfirmed: bool)
    requires Inv(g, s) && n in s.workers && s.workers[n].pc.Exited?
    requires Can(g, s, Decide(n, requested, policy, overLimit, treeUnconfirmed))
    requires AfterExit(s.workers[n].pc.clean && !s.workers[n].ready.probeFailed, s.cancelled || s.stopping, requested,
                       policy, overLimit, treeUnconfirmed) in {RestartNow, RestartLater}
    ensures var s' := Do(g, s, Decide(n, requested, policy, overLimit, treeUnconfirmed));
      && Can(g, s', Begin(n))
      && var w, w' := s.workers[n], Do(g, s', Begin(n)).workers[n];
         && w'.pc == Incarnation(false) && w'.ready.generation == w.ready.generation + 1 && !w'.ready.probeFailed
         && |w'.ready.cycles| == |w.ready.cycles| + 1 && !w'.ready.Settled()
  {
    assert Ok(s.workers, Deps(g, n), Service(g, n), s.handoff, s.workers[n]);
  }

  // A readiness failure of the running incarnation counts: however cleanly its command
  // exits then, it is treated as failed and restarts on failure.
  lemma ReadinessFailureCounts(g: Procs, s: Sys, n: Name, gen: nat)
    requires Inv(g, s) && Can(g, s, FailReady(n, gen)) && !s.cancelled && !s.stopping
    requires var w := s.workers[n];
      w.pc == Incarnation(true) && gen in w.live && w.ready.generation == gen && !w.ready.IsReady()
    ensures var s1 := Do(g, s, FailReady(n, gen));
      && s1.workers[n].ready.probeFailed && gen in s1.workers[n].failed
      && Can(g, s1, Return(n, true))
      && var s2 := Do(g, s1, Return(n, true));
         && Can(g, s2, Decide(n, false, OnFailure, false, false))
         && Do(g, s2, Decide(n, false, OnFailure, false, false)).workers[n].pc == Backoff
  {
    assert Ok(s.workers, Deps(g, n), Service(g, n), s.handoff, s.workers[n]);
  }

  // An incarnation found unhealthy counts as failed, whether it became ready or not.
  lemma UnhealthyCounts(g: Procs, s: Sys, n: Name, gen: nat)
    requires Can(g, s, Unhealthy(n, gen))
    ensures Do(g, s, Unhealthy(n, gen)).workers[n].ready.probeFailed
  {
  }

  // One whose context was cancelled is heard no more.
  lemma CancelledIsSilent(g: Procs, s: Sys, n: Name, gen: nat, cancelled: bool)
    requires Can(g, s, CancelIncarnation(n, gen)) && s.workers[n].ready.cycles != []
    ensures var w := Do(g, s, CancelIncarnation(n, gen)).workers[n];
      Marked(w, gen, cancelled) == w && ReadinessFailed(w, gen, cancelled) == w
  {
  }

  // A service that ended can be started again: it waits for its dependencies anew,
  // under a fresh cycle.
  lemma RerunWaitsAgain(g: Procs, s: Sys, n: Name)
    requires Inv(g, s) && Can(g, s, Rerun(n))
    ensures var w, w' := s.workers[n], Do(g, s, Rerun(n)).workers[n];
      && w'.pc == AtDep(0) && !w'.ready.Settled() && |w'.ready.cycles| == |w.ready.cycles| + 1
      && w'.ready.disposition.Unset?
  {
    assert Ok(s.workers, Deps(g, n), Service(g, n), s.handoff, s.workers[n]);
  }

  // A stop that comes first decides: an exit after it, of a task or an incarnation, and
  // a backoff it interrupts end as stopped, whatever the exit was.
  lemma StopDecides(g: Procs, s: Sys, step: Step)
    requires Inv(g, s) && Can(g, s, step) && s.cancelled && (step.Decide? || step.StopBackoff?)
    ensures var w, w' := s.workers[step.n], Do(g, s, step).workers[step.n];
      w'.pc == Ending(Stopped) && w'.ready == w.ready
  {
  }

  // A waiter cancelled, or woken, ends as its dependency did.
  lemma WaiterEnds(g: Procs, s: Sys, n: Name)
    requires Inv(g, s) && Waits(g, s.workers, n)
    ensures var d, c := WaitedFor(g, s.workers, n), s.workers[n].pc.cycle;
      && (s.cancelled ==>
            Do(g, s, CancelWait(n)).workers[n].pc == Ending(if d.disposition == Terminal then Terminal else Stopped))
      && (d.cycles[c] in {Terminal, Stopped} ==> Do(g, s, Wake(n)).workers[n].pc == Ending(d.cycles[c]))
  {
  }

  ghost function Last(run: seq<Sys>): Sys
    requires run != []
  {
    run[|run| - 1]
  }

  ghost predicate Extends(g: Procs, run: seq<Sys>, run': seq<Sys>)
  {
    Run(g, run') && run <= run'
  }

  lemma Extend(g: Procs, run: seq<Sys>, step: Step) returns (run': seq<Sys>)
    requires Run(g, run) && Can(g, Last(run), step)
    ensures Extends(g, run, run') && run' == run + [Do(g, Last(run), step)]
  {
    run' := run + [Do(g, Last(run), step)];
    hide Can, Do, Init;
    assert SysNext(g, run'[|run| - 1], run'[|run|]);
  }

  // Nothing stops the stack; the processes in `done` are up and the others untouched.
  ghost predicate Partly(s: Sys, selected: set<Name>, done: set<Name>)
  {
    && s.workers.Keys == selected && done <= selected && !s.cancelled && !s.stopping && !s.handoff
    && forall n | n in selected ::
         if n in done then s.workers[n].ready.cycles == [Satisfied] && s.workers[n].ran else s.workers[n] == Fresh
  }

  // One dependency that is up is passed.
  lemma PassesOne(g: Procs, run: seq<Sys>, n: Name, i: nat) returns (run': seq<Sys>)
    requires Run(g, run) && n in Last(run).workers && i < |Deps(g, n)| && Last(run).workers[n] == Fresh.(pc := AtDep(i))
    requires var d := Deps(g, n)[i];
      d in Last(run).workers ==> d != n && Last(run).workers[d].ready.cycles == [Satisfied]
    ensures Extends(g, run, run')
    ensures Last(run') == Last(run).(workers := Last(run).workers[n := Fresh.(pc := AtDep(i + 1))])
  {
    assert run != [];
    hide Run;
    run' := Extend(g, run, TakeCycle(n));
    if Deps(g, n)[i] in Last(run).workers { run' := Extend(g, run', Wake(n)); }
  }

  lemma {:induction false} PassesAll(g: Procs, run: seq<Sys>, n: Name, i: nat) returns (run': seq<Sys>)
    requires Run(g, run) && n in Last(run).workers && i <= |Deps(g, n)| && Last(run).workers[n] == Fresh.(pc := AtDep(i))
    requires forall d | d in Deps(g, n) && d in Last(run).workers ::
      d != n && Last(run).workers[d].ready.cycles == [Satisfied]
    ensures Extends(g, run, run')
    ensures Last(run') == Last(run).(workers := Last(run).workers[n := Fresh.(pc := AtDep(|Deps(g, n)|))])
    decreases |Deps(g, n)| - i
  {
    assert run != [];
    hide Run;
    run' := run;
    if i < |Deps(g, n)| {
      assert Deps(g, n)[i] in Deps(g, n);
      run' := PassesOne(g, run, n, i);
      run' := PassesAll(g, run', n, i + 1);
    } else {
      assert Last(run).workers[n := Last(run).workers[n]] == Last(run).workers;
    }
  }

  // Past its dependencies a process starts and becomes ready, or completes.
  lemma GetsReady(g: Procs, run: seq<Sys>, n: Name) returns (run': seq<Sys>)
    requires Run(g, run) && n in Last(run).workers && Last(run).workers[n] == Fresh.(pc := AtDep(|Deps(g, n)|))
    requires !Last(run).cancelled && !Last(run).stopping
    ensures Extends(g, run, run') && n in Last(run').workers
    ensures Last(run') == Last(run).(workers := Last(run).workers[n := Last(run').workers[n]])
    ensures Last(run').workers[n].ready.cycles == [Satisfied] && Last(run').workers[n].ran
  {
    hide Run;
    run' := Extend(g, run, Begin(n));
    run' := Extend(g, run', Launch(n));
    if Service(g, n) {
      run' := Extend(g, run', MarkReady(n, 1));
    } else {
      run' := Completes(g, run', n);
    }
  }

  lemma Completes(g: Procs, run: seq<Sys>, n: Name) returns (run': seq<Sys>)
    requires Run(g, run) && n in Last(run).workers && !Last(run).cancelled
    requires Last(run).workers[n] == Fresh.(pc := TaskRunning(true), ready := Fresh.ready.StartTask(), ran := true)
    ensures Extends(g, run, run') && n in Last(run').workers
    ensures Last(run') == Last(run).(workers := Last(run).workers[n := Last(run').workers[n]])
    ensures Last(run').workers[n].ready.cycles == [Satisfied] && Last(run').workers[n].ran
  {
    hide Run;
    run' := Extend(g, run, Return(n, true));
    run' := Extend(g, run', Decide(n, false, Never, false, false));
  }

  lemma OneComesUp(g: Procs, run: seq<Sys>, selected: set<Name>, done: set<Name>, n: Name) returns (run': seq<Sys>)
    requires Run(g, run) && Partly(Last(run), selected, done) && n in selected && n !in done
    requires forall d | d in Deps(g, n) && d in selected :: d in done
    ensures Extends(g, run, run') && Partly(Last(run'), selected, done + {n})
  {
    hide Run;
    run' := PassesAll(g, run, n, 0);
    run' := GetsReady(g, run', n);
  }

  lemma {:induction false} LowestRank(rank: map<Name, nat>, s: set<Name>) returns (n: Name)
    requires s != {} && forall m | m in s :: m in rank
    ensures n in s && forall m | m in s :: rank[n] <= rank[m]
    decreases |s|
  {
    n :| n in s;
    if s != {n} {
      var m := LowestRank(rank, s - {n});
      if rank[m] < rank[n] { n := m; }
    }
  }

  lemma {:induction false} RestComesUp(g: Procs, rank: map<Name, nat>, run: seq<Sys>, selected: set<Name>, done: set<Name>)
    returns (run': seq<Sys>)
    requires Ranked(g, rank) && Run(g, run) && Partly(Last(run), selected, done) && forall n | n in selected :: n in g
    ensures Extends(g, run, run') && Partly(Last(run'), selected, selected)
    decreases |selected - done|
  {
    assert run != [];
    hide Run, Partly;
    assert done <= selected by { PartOf(Last(run), selected, done); }
    run' := run;
    if selected - done != {} {
      var n := LowestRank(rank, selected - done);
      forall d | d in Deps(g, n) && d in selected
        ensures d in done
      {
        assert rank[d] < rank[n];
      }
      run' := OneComesUp(g, run, selected, done, n);
      assert selected - (done + {n}) < selected - done;
      Shrinks(selected - (done + {n}), selected - done);
      run' := RestComesUp(g, rank, run', selected, done + {n});
    } else {
      assert forall n | n in selected :: n in done;
    }
  }

  lemma PartOf(s: Sys, selected: set<Name>, done: set<Name>)
    requires Partly(s, selected, done)
    ensures done <= selected
  {
  }

  // Whatever is selected of an acyclic configuration can come up as a whole: there is a
  // run in which every service becomes ready and every task completes.
  lemma StackComesUp(g: Procs, rank: map<Name, nat>, selected: seq<Name>) returns (run: seq<Sys>)
    requires Ranked(g, rank) && forall n | n in selected :: n in g
    ensures StackRun(g, selected, run)
    ensures forall n | n in selected :: n in Last(run).workers && Delivered(g, Last(run).workers[n], n)
  {
    var start := Sys(map n | n in selected :: Fresh, false, false, false);
    assert Run(g, [start]) && Partly(Last([start]), start.workers.Keys, {});
    hide Run;
    run := RestComesUp(g, rank, [start], start.workers.Keys, {});
    RunKeeps(g, run, |run| - 1);
    assert run[0] == start;
    forall n | n in selected
      ensures n in Last(run).workers && Delivered(g, Last(run).workers[n], n)
    {
      assert Ok(Last(run).workers, Deps(g, n), Service(g, n), Last(run).handoff, Last(run).workers[n]);
      assert Last(run).workers[n].ready.cycles[0] == Satisfied;
    }
  }
}
