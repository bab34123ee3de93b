/**
 Readiness cycles (internal/runner/state.go).

 A process owns a sequence of readiness cycles; the last is current. Waiters hold
 a cycle, not the process, so what may happen to a cycle and when is all that
 dependents can rely on. The functions on Ready say what each critical section
 does; the class below is the code, proved against them.
 */
module Readiness {
  datatype Outcome = Unset | Satisfied | Terminal | Again | Stopped

  datatype Ready = Ready(cycles: seq<Outcome>, disposition: Outcome, generation: nat, probeFailed: bool)
  {
    // Only the current cycle can be unsettled, and it never ends without a
    // verdict: a reset settles a cycle and replaces it in one step.
    ghost predicate Valid()
    {
      && cycles != [] && cycles[|cycles| - 1] != Again
      && forall c | 0 <= c < |cycles| - 1 :: cycles[c] != Unset
    }

    function Current(): nat
      requires cycles != []
    {
      |cycles| - 1
    }

    predicate Settled()
      requires cycles != []
    {
      cycles[Current()] != Unset
    }

    function Settle(o: Outcome): Ready
      requires cycles != []
    {
      if Settled() then this else this.(cycles := cycles[Current() := o])
    }

    // A probe result counts only for the running incarnation, and only while it
    // has not failed readiness.
    predicate Admits(live: bool, gen: nat)
    {
      !probeFailed && live && generation == gen
    }

    function MarkReadyFor(live: bool, gen: nat, ok: bool): Ready
      requires cycles != []
    {
      if Admits(live, gen) then Settle(if ok then Satisfied else Terminal) else this
    }

    predicate IsReady()
      requires cycles != []
    {
      cycles[Current()].Satisfied?
    }

    predicate FailsReadiness(live: bool, gen: nat)
      requires cycles != []
    {
      live && generation == gen && !IsReady()
    }

    function FailReadinessFor(live: bool, gen: nat): Ready
      requires cycles != []
    {
      if FailsReadiness(live, gen) then this.(probeFailed := true) else this
    }

    function Reset(): Ready
      requires cycles != []
    {
      var settled := Settle(Again);
      settled.(cycles := settled.cycles + [Unset], disposition := Unset)
    }

    // The lifecycle is over (Terminal), or the run is stopping (Stopped).
    function Finish(o: Outcome): Ready
      requires cycles != []
    {
      this.(disposition := o).Settle(o)
    }

    function StartService(): Ready
    {
      this.(generation := generation + 1, probeFailed := false, disposition := Unset)
    }

    function StartTask(): Ready
    {
      this.(generation := generation + 1)
    }
  }

  // No cycle disappears and no published outcome changes.
  ghost predicate Progresses(r: Ready, r': Ready)
  {
    && |r.cycles| <= |r'.cycles|
    && forall c | 0 <= c < |r.cycles| && r.cycles[c] != Unset :: r'.cycles[c] == r.cycles[c]
  }

  // A cycle is written once, by whoever settles it first.
  lemma SettledOnce(r: Ready, o: Outcome, p: Outcome)
    requires r.Valid() && o != Unset && o != Again
    ensures r.Settle(o).Settle(p) == r.Settle(o) && Progresses(r, r.Settle(o)) && r.Settle(o).Valid()
  {
  }

  // After a reset no waiter of the old cycle is left without an outcome, and a
  // fresh cycle is there to wait for.
  lemma ResetReleases(r: Ready)
    requires r.Valid()
    ensures r.Reset().Valid() && Progresses(r, r.Reset())
    ensures !r.Reset().Settled() && r.Reset().Current() == r.Current() + 1
    ensures r.Reset().cycles[r.Current()] == if r.Settled() then r.cycles[r.Current()] else Again
  {
  }

  // Of one incarnation's readiness success and readiness failure the first to be
  // recorded excludes the other, until the next incarnation or the next cycle.
  lemma FirstVerdictWins(r: Ready, gen: nat, live: bool, live': bool)
    requires r.Valid()
    ensures r.FailsReadiness(live, gen) ==>
      forall ok :: r.FailReadinessFor(live, gen).MarkReadyFor(live', gen, ok) == r.FailReadinessFor(live, gen)
    ensures r.MarkReadyFor(live, gen, true) != r ==>
      r.MarkReadyFor(live, gen, true).FailReadinessFor(live', gen) == r.MarkReadyFor(live, gen, true)
  {
  }

  class ReadyCycle {
    var outcome: Outcome
    var closed: bool

    constructor ()
      ensures outcome == Unset && !closed
    {
      outcome, closed := Unset, false;
    }

    // The outcome is written before the channel is closed, and closing a closed
    // channel would be a panic.
    method Publish(o: Outcome)
      requires !closed && o != Unset
      modifies this
      ensures outcome == o && closed
    {
      outcome := o;
      closed := true;
    }
  }

  class ProcState {
    var readyCycle: ReadyCycle
    var readyDisposition: Outcome
    var generation: nat
    var probeFailed: bool
    // Every cycle this process ever had; waiters may still hold any of them.
    ghost var history: seq<ReadyCycle>

    constructor ()
      ensures Valid() && fresh(readyCycle) && Value() == Ready([Unset], Unset, 0, false)
    {
      var cycle := new ReadyCycle();
      readyCycle, history := cycle, [cycle];
      readyDisposition, generation, probeFailed := Unset, 0, false;
    }

    ghost predicate Valid()
      reads this, history
    {
      && history != [] && readyCycle == history[|history| - 1]
      && (forall i, j | 0 <= i < j < |history| :: history[i] != history[j])
      && (forall i | 0 <= i < |history| :: history[i].closed <==> history[i].outcome != Unset)
      && Value().Valid()
    }

    ghost function Outcomes(): seq<Outcome>
      reads this, history
    {
      seq(|history|, i requires 0 <= i < |history| reads this, history => history[i].outcome)
    }

    ghost function Value(): Ready
      reads this, history
    {
      Ready(Outcomes(), readyDisposition, generation, probeFailed)
    }

    method SettleLocked(o: Outcome)
      requires Valid() && o !in {Unset, Again}
      modifies readyCycle
      ensures Valid() && Value() == old(Value()).Settle(o)
    {
      if readyCycle.outcome != Unset { return; }
      assert !readyCycle.closed;
      readyCycle.Publish(o);
      assert Outcomes() == old(Outcomes())[|history| - 1 := o];
    }

    method MarkReadyFor(live: bool, gen: nat, ok: bool) returns (latched: bool)
      requires Valid()
      modifies readyCycle
      ensures Valid() && Value() == old(Value()).MarkReadyFor(live, gen, ok)
      // Success counts from the running incarnation alone, once, and not after it failed.
      ensures latched <==> old(readyCycle.outcome).Unset? && live && generation == gen && !probeFailed
      ensures latched ==> readyCycle.outcome == (if ok then Satisfied else Terminal) && readyCycle.closed
    {
      latched := false;
      if readyCycle.outcome != Unset { return; }
      if probeFailed || !live || generation != gen { return; }
      SettleLocked(if ok then Satisfied else Terminal);
      latched := true;
    }

    method FailReadinessFor(live: bool, gen: nat) returns (recorded: bool)
      requires Valid()
      modifies this`probeFailed
      ensures Valid() && Value() == old(Value()).FailReadinessFor(live, gen)
      ensures recorded <==> live && generation == gen && !readyCycle.outcome.Satisfied?
      ensures probeFailed == (recorded || old(probeFailed))
    {
      if !live || generation != gen || readyCycle.outcome == Satisfied { return false; }
      probeFailed := true;
      assert Outcomes() == old(Outcomes());
      recorded := true;
    }

    // Ends the current cycle, without a verdict if it has none yet, and opens the next.
    method ResetReady()
      requires Valid()
      modifies this, readyCycle
      ensures Valid() && fresh(readyCycle) && Value() == old(Value()).Reset()
      ensures history[..|history| - 1] == old(history)
      ensures readyCycle.outcome.Unset? && readyDisposition.Unset?
      ensures old(readyCycle).outcome == if old(readyCycle.outcome).Unset? then Again else old(readyCycle.outcome)
    {
      if readyCycle.outcome == Unset { readyCycle.Publish(Again); }
      var cycle := new ReadyCycle();
      readyCycle, history, readyDisposition := cycle, history + [cycle], Unset;
      assert Outcomes() == old(Value()).Reset().cycles;
    }

    method Finish(o: Outcome)
      requires Valid() && o in {Terminal, Stopped}
      modifies this`readyDisposition, readyCycle
      ensures Valid() && Value() == old(Value()).Finish(o)
      ensures readyDisposition == o && readyCycle.closed
      ensures readyCycle.outcome == if old(readyCycle.outcome).Unset? then o else old(readyCycle.outcome)
    {
      readyDisposition := o;
      assert Outcomes() == old(Outcomes());
      SettleLocked(o);
    }

    method StartService()
      requires Valid()
      modifies this`generation, this`probeFailed, this`readyDisposition
      ensures Valid() && Value() == old(Value()).StartService()
      ensures generation == old(generation) + 1 && !probeFailed && readyDisposition.Unset?
    {
      generation, probeFailed, readyDisposition := generation + 1, false, Unset;
      assert Outcomes() == old(Outcomes());
    }

    // The cycle a waiter takes, and later the outcome of the cycle it took.
    method CurrentReadyCycle() returns (cycle: ReadyCycle)
      requires Valid()
      ensures cycle == history[Value().Current()]
    {
      cycle := readyCycle;
    }

    method OutcomeOf(cycle: ReadyCycle, ghost c: nat) returns (o: Outcome)
      requires Valid() && c < |history| && history[c] == cycle
      ensures o == Value().cycles[c]
    {
      o := cycle.outcome;
    }
  }
}
