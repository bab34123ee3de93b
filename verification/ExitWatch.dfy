/**
 How a worker ends its command's group (internal/runner/lifecycle.go, exec, and
 internal/runner/exitwatch_unix.go).

 A launch whose exit can be observed without reaping it waits for an observation, a
 cancellation or the handoff, whichever its select takes. A launch whose observation
 could not be set up is ended at once. Either way the worker decides whether it may
 still signal the group, then withdraws its authority, and only then begins the reap.
 The leader may exit at any moment.
 */
module ExitWatch {
  datatype ExitObservation = ExitPending | ExitObserved | ExitOwnershipLost | ExitUnsupported

  predicate SignallingEstablished(o: ExitObservation, cancelled: bool)
  {
    if o.ExitOwnershipLost? then false
    else if o.ExitUnsupported? then cancelled
    else cancelled || o.ExitObserved?
  }

  // What setting up the observation of a leader's exit came to: an observer, no way to
  // observe it on this platform, or a wait on the leader that failed.
  datatype Watch = Observing | Unsupported | WaitFailed

  // A missing way to observe says nothing about the leader; a failed wait may mean that
  // something else collected it.
  predicate LeaderStillReserved(w: Watch)
  {
    w.Unsupported?
  }

  datatype Stage =
    | Waiting
    | Deciding(observation: ExitObservation, cancelled: bool)
    | Refused        // there is no observer: the launch is about to be ended
    | Terminating    // the group is being signalled
    | Unsignalled    // it may not be
    | Withdrawn
    | Reaping
    | HandedOff

  datatype Leader = Running | Zombie | Reaped

  // `terminated` and `sent` only record what happened: whether the group was to be
  // signalled, and what the leader was at each signal.
  datatype Exec = Exec(watch: Watch, leader: Leader, stage: Stage, reapStarted: bool, terminated: bool, sent: seq<Leader>)

  datatype Event =
    | LeaderExits
    | ReapCompletes
    | Observes                      // the observer reports the exit
    | LosesLeader(collected: bool)  // the observer cannot establish the leader's state
    | IsCancelled
    | Decides
    | Signals
    | Withdraws
    | BeginsReap
    | HandsOff

  predicate Starts(x: Exec)
  {
    && x.stage == (if x.watch.Observing? then Waiting else Refused) && (x.leader.Reaped? ==> x.watch.WaitFailed?)
    && !x.reapStarted && !x.terminated && x.sent == []
  }

  predicate Can(x: Exec, e: Event)
  {
    match e
    case LeaderExits => x.leader.Running?
    // The runner performs the only reap of a leader it has not lost.
    case ReapCompletes => x.leader.Zombie? && x.reapStarted
    case Observes => x.stage.Waiting? && x.leader.Zombie?
    case LosesLeader(_) => x.stage.Waiting?
    case IsCancelled => x.stage.Waiting?
    case Decides => x.stage.Deciding? || x.stage.Refused?
    case Signals => x.stage.Terminating?
    case Withdraws => x.stage in {Terminating, Unsignalled}
    case BeginsReap => x.stage.Withdrawn?
    case HandsOff => x.stage == Reaping || (x.watch.Observing? && x.stage in {Waiting, Terminating, Unsignalled})
  }

  predicate MaySignal(x: Exec)
  {
    if x.stage.Deciding? then SignallingEstablished(x.stage.observation, x.stage.cancelled)
    else LeaderStillReserved(x.watch)
  }

  function Do(x: Exec, e: Event): Exec
    requires Can(x, e)
  {
    match e
    case LeaderExits => x.(leader := Zombie)
    case ReapCompletes => x.(leader := Reaped)
    case Observes => x.(stage := Deciding(ExitObserved, false))
    case LosesLeader(collected) =>
      x.(stage := Deciding(ExitOwnershipLost, false), leader := if collected then Reaped else x.leader)
    case IsCancelled => x.(stage := Deciding(ExitPending, true))
    case Decides =>
      if MaySignal(x) then x.(stage := Terminating, terminated := true) else x.(stage := Unsignalled)
    case Signals => x.(sent := x.sent + [x.leader])
    case Withdraws => x.(stage := Withdrawn)
    case BeginsReap => x.(stage := Reaping, reapStarted := true)
    case HandsOff => x.(stage := HandedOff, reapStarted := true)
  }

  ghost predicate Next(x: Exec, y: Exec)
  {
    exists e :: Can(x, e) && y == Do(x, e)
  }

  ghost predicate Run(run: seq<Exec>)
  {
    run != [] && Starts(run[0]) && forall i | 0 <= i < |run| - 1 :: Next(run[i], run[i + 1])
  }

  // ── what every moment of a run satisfies ────────────────────────────────────

  // The worker knows that its leader is unreaped.
  predicate Reserved(x: Exec)
  {
    match x.stage
    case Waiting => true
    case Deciding(o, _) => !o.ExitOwnershipLost?
    case Refused => LeaderStillReserved(x.watch)
    case Terminating => true
    case _ => false
  }

  ghost predicate Inv(x: Exec)
  {
    && (Reserved(x) ==> !x.leader.Reaped?) && (x.reapStarted ==> x.stage in {Reaping, HandedOff})
    && (forall k | 0 <= k < |x.sent| :: !x.sent[k].Reaped?) && (x.sent != [] ==> x.terminated)
    && (x.stage.Waiting? || x.stage.Deciding? ==> x.watch.Observing? && !x.terminated)
    && (x.stage.Deciding? ==> x.stage == Deciding(ExitPending, true)
                              || (!x.stage.cancelled && x.stage.observation in {ExitObserved, ExitOwnershipLost}))
    && (x.stage.Refused? ==> !x.watch.Observing? && !x.terminated)
    && (x.stage.Terminating? ==> x.terminated) && (x.stage.Unsignalled? ==> !x.terminated)
    && (!x.watch.Observing? && !x.stage.Refused? ==> (x.terminated <==> LeaderStillReserved(x.watch)))
  }

  lemma {:induction false} RunKeeps(run: seq<Exec>, i: nat)
    requires Run(run) && i < |run|
    ensures Inv(run[i]) && run[i].watch == run[0].watch
  {
    if i > 0 {
      RunKeeps(run, i - 1);
      assert Next(run[i - 1], run[i]);
    }
  }

  // No reap begins before the worker is done with signals, and each signal of its
  // group is sent while the leader is unreaped.
  lemma SignalledWhileReserved(run: seq<Exec>, i: nat, k: nat)
    requires Run(run) && i < |run|
    ensures run[i].reapStarted ==> run[i].stage in {Reaping, HandedOff}
    ensures run[i].stage.Terminating? ==> !run[i].leader.Reaped?
    ensures k < |run[i].sent| ==> !run[i].sent[k].Reaped?
  {
    RunKeeps(run, i);
  }

  // A launch whose exit cannot be observed has its group ended before authority is
  // withdrawn exactly when the platform merely lacks an observer; after a failed wait
  // nothing is sent.
  lemma FailedObservation(run: seq<Exec>, i: nat)
    requires Run(run) && i < |run| && !run[0].watch.Observing? && !run[i].stage.Refused?
    ensures run[i].terminated <==> run[0].watch.Unsupported?
    ensures run[0].watch.WaitFailed? ==> run[i].sent == []
  {
    RunKeeps(run, i);
  }

  // Some run of such a launch signals its group.
  ghost predicate ComesToSignal(w: Watch)
  {
    exists run: seq<Exec> :: Run(run) && run[0].watch == w && run[|run| - 1].sent != []
  }

  lemma Signalled(w: Watch) returns (run: seq<Exec>)
    requires !w.WaitFailed?
    ensures Run(run) && run[0].watch == w && run[|run| - 1].sent == [Running]
  {
    var x := Exec(w, Running, if w.Observing? then Waiting else Refused, false, false, []);
    run := [x];
    if w.Observing? {
      x := Do(x, IsCancelled);
      run := run + [x];
    }
    x := Do(x, Decides);
    run := run + [x];
    x := Do(x, Signals);
    run := run + [x];
  }

  // A group comes to be signalled exactly when setting up the observation did not fail
  // on a wait.
  lemma SignalsUnlessWaitFailed(w: Watch)
    ensures ComesToSignal(w) <==> !w.WaitFailed?
  {
    if w.WaitFailed? {
      forall run: seq<Exec> | Run(run) && run[0].watch == w
        ensures run[|run| - 1].sent == []
      {
        RunKeeps(run, |run| - 1);
      }
    } else {
      var run := Signalled(w);
    }
  }

  // An observed command's group goes unsignalled only when the observer lost its leader.
  lemma UnsignalledOnlyWhenLost(run: seq<Exec>, i: nat)
    requires Run(run) && i < |run| && run[i].stage.Deciding?
    ensures MaySignal(run[i]) <==> !run[i].stage.observation.ExitOwnershipLost?
  {
    RunKeeps(run, i);
  }
}
