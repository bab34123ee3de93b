/**
 The process group handle (internal/runner/processgroup_unix.go) and the
 escalation that uses it (internal/runner/exitwatch_unix.go).

 The handle's fields refine the value view of Authority; its methods say which
 processes a signal reaches and when an observation of "empty" may be believed.
 */
module ProcessGroup {
  import opened Wrappers
  import opened Kernel
  import opened World
  import opened Authority

  datatype SealObservation = SealObservation(state: GroupState, identity: Option<int>, members: seq<int>, failed: bool)

  // By instant t the target had joined the group `leader` founded, which no
  // process leaves.
  ghost predicate Joined(at: History, t: nat, target: nat, leader: nat)
  {
    exists u: nat :: u <= t && target < |at(u).procs| && at(u).procs[target].group == leader
  }

  // Everything delivered since `from` went to members of the group `leader`
  // founded.
  ghost predicate OnlyMembers(w: World, from: nat, leader: nat)
    reads w
  {
    from <= |w.delivered| && forall k | from <= k < |w.delivered| :: Joined(w.at, w.now, w.delivered[k].target, leader)
  }

  // The leader of the handle's group stays unreaped from one instant through
  // another: what the run's order of withdrawal and reap gives every signal.
  ghost predicate Reserved(at: History, from: nat, to: nat, leader: nat, pgid: int)
  {
    Leads(at(from), leader, pgid) && forall t: nat | from <= t <= to :: Kept(at, t, leader)
  }

  ghost predicate Kept(at: History, t: nat, leader: nat)
  {
    leader < |at(t).procs| && at(t).procs[leader].Unreaped()
  }

  lemma ReachedIsMember(at: History, from: nat, t: nat, leader: nat, pgid: int, target: nat)
    requires Behaviour(at) && Reserved(at, from, t, leader, pgid) && from <= t && InGroup(at(t), target, pgid)
    ensures Joined(at, t, target, leader)
  {
    BehaviourEvolves(at, from, t);
    assert Kept(at, t, leader);
    NumberReachesOneGroup(at(t), leader, target);
  }

  class UnixProcessGroup {
    var pgid: int
    var withdrawn: bool
    // Whether the last enumeration failed, and what it listed.
    var probeFailed: bool
    var members: seq<int>
    // How often the group was looked at.
    ghost var looks: nat

    constructor ()
      ensures Value() == Untracked && members == [] && !probeFailed
    {
      pgid, withdrawn, probeFailed, members, looks := 0, false, false, [], 0;
    }

    ghost function Value(): Authority
      reads this
    {
      Authority(pgid, withdrawn)
    }

    // The command leads a new group under its own pid.
    method Track(pid: int)
      modifies this`pgid
      ensures Value() == Authority(pid, old(withdrawn))
    {
      pgid := pid;
    }

    // Sends nothing once authority is withdrawn or the handle closed; otherwise
    // what is delivered goes to holders of the number at one instant.
    method Signal(w: World, sig: Signal) returns (done: bool)
      requires w.Valid()
      modifies w`now, w`delivered, w`groupKills
      ensures w.Valid() && old(w.now) <= w.now
      ensures |old(w.delivered)| <= |w.delivered| && w.delivered[..|old(w.delivered)|] == old(w.delivered)
      ensures !Value().MaySignal() ==> done && w.delivered == old(w.delivered)
      ensures w.groupKills == if Value().MaySignal() then old(w.groupKills) + [(pgid, sig)] else old(w.groupKills)
      ensures done && Value().MaySignal() ==> forall i: nat :: !InGroup(w.at(w.now), i, pgid)
      ensures forall k | |old(w.delivered)| <= k < |w.delivered| ::
        w.delivered[k].signal == sig && InGroup(w.at(w.now), w.delivered[k].target, pgid)
    {
      if withdrawn || pgid <= 1 { return true; }
      var r := w.KillGroup(pgid, sig);
      done := r.NoGroup?;
    }

    // What was delivered since `from` stayed in the leader's group, if the leader
    // was reserved all along.
    ghost predicate StaysInGroup(w: World, from: nat, since: nat, leader: nat)
      reads this, w
    {
      since <= w.now && from <= |w.delivered| && (Reserved(w.at, since, w.now, leader, pgid) ==> OnlyMembers(w, from, leader))
    }

    // While the leader is reserved, a signal reaches only its own group.
    method SignalOwn(w: World, sig: Signal, ghost since: nat, ghost leader: nat, ghost from: nat)
      requires w.Valid() && StaysInGroup(w, from, since, leader)
      modifies w`now, w`delivered, w`groupKills
      ensures w.groupKills == if Value().MaySignal() then old(w.groupKills) + [(pgid, sig)] else old(w.groupKills)
      ensures w.Valid() && old(w.now) <= w.now && StaysInGroup(w, from, since, leader)
      ensures |old(w.delivered)| <= |w.delivered| && w.delivered[..|old(w.delivered)|] == old(w.delivered)
      ensures !Value().MaySignal() ==> w.delivered == old(w.delivered)
      ensures forall k | |old(w.delivered)| <= k < |w.delivered| :: w.delivered[k].signal == sig
    {
      ghost var before := w.delivered;
      var done := Signal(w, sig);
      if Reserved(w.at, since, w.now, leader, pgid) {
        forall k | from <= k < |w.delivered|
          ensures Joined(w.at, w.now, w.delivered[k].target, leader)
        {
          if k < |before| {
            assert w.delivered[k] == before[k];
          } else {
            ReachedIsMember(w.at, since, w.now, leader, pgid, w.delivered[k].target);
          }
        }
      }
    }

    method Withdraw()
      modifies this`withdrawn
      ensures Value() == old(Value()).Withdraw()
    {
      withdrawn := true;
    }

    // Absence is established only by an enumeration that finds nobody running; a
    // failed enumeration can add a conclusion, never remove one.
    method State(w: World) returns (s: GroupState)
      requires w.Valid()
      modifies w`now, this`probeFailed, this`members, this`looks
      ensures w.Valid() && old(w.now) <= w.now && looks == old(looks) + 1
      // Not being empty has a reason too: somebody held the number, or a call was refused.
      ensures s.GroupOwned? ==> Held(w.at, old(w.now), w.now, pgid)
      ensures s.GroupUnavailable? ==> !Fair(w, old(w.now), w.now)
      ensures s.GroupEmpty? ==> MayReportEmpty(Value(), w.at(w.now))
      ensures Value().pgid <= 1 ==> s.GroupEmpty? && members == old(members) && probeFailed == old(probeFailed)
      ensures Value().pgid > 1 ==> (s.GroupOwned? && members != []) || (probeFailed && !s.GroupEmpty? && members == [])
                                   || (s.GroupEmpty? && !probeFailed && members == [])
    {
      looks := looks + 1;
      if pgid <= 1 { return GroupEmpty; }
      var pids, known := w.MemberPIDs(pgid);
      if !known {
        probeFailed, members := true, [];
        var probe := w.ProbeGroup(pgid);
        return if probe.Reached? then GroupOwned else GroupUnavailable;
      }
      probeFailed, members := false, pids;
      s := if |pids| > 0 then GroupOwned else GroupEmpty;
    }

    // Withdraws before observing, so no signal admitted earlier is in flight when
    // the group is observed, and releases the number last.
    method Seal(w: World) returns (o: SealObservation)
      requires w.Valid()
      modifies w`now, this
      ensures w.Valid() && old(w.now) <= w.now
      ensures Value() == old(Value()).Withdraw().Close() && !Value().MaySignal()
      ensures o.state.GroupEmpty? ==> MayReportEmpty(old(Value()), w.at(w.now))
      ensures o.identity == if old(pgid) <= 1 then None else Some(old(pgid))
      ensures old(pgid) > 1 && o.state.GroupEmpty? ==> o.members == [] && !o.failed
      ensures o.state.GroupOwned? ==> Held(w.at, old(w.now), w.now, old(pgid))
      ensures o.state.GroupUnavailable? ==> !Fair(w, old(w.now), w.now)
    {
      Withdraw();
      var state := State(w);
      o := SealObservation(state, if pgid <= 1 then None else Some(pgid), members, probeFailed);
      Close();
    }

    method Close()
      modifies this`pgid
      ensures Value() == old(Value()).Close()
    {
      pgid := 0;
    }

    // Looks until the group is empty, or `polls` times more.
    method WaitWhileLive(w: World, polls: nat) returns (emptied: bool)
      requires w.Valid()
      modifies w`now, this`probeFailed, this`members, this`looks
      ensures w.Valid() && old(w.now) <= w.now
      ensures emptied ==> MayReportEmpty(Value(), w.at(w.now)) && looks <= old(looks) + polls + 1
      ensures !emptied ==> looks == old(looks) + polls + 1
      ensures !emptied && Fair(w, old(w.now), w.now) ==> Held(w.at, old(w.now), w.now, pgid)
    {
      var left := polls;
      while true
        invariant w.Valid() && old(w.now) <= w.now && looks == old(looks) + polls - left
        decreases left
      {
        ghost var before := w.now;
        var s := State(w);
        if s.GroupEmpty? { return true; }
        assert Held(w.at, before, w.now, pgid) ==> Held(w.at, old(w.now), w.now, pgid);
        if left == 0 { return false; }
        left := left - 1;
        w.Advance();
      }
    }

    // SIGTERM first, then SIGKILL: either is left out only because the group was found
    // empty by then.
    ghost predicate Escalated(w: World, from: nat, sent: seq<(int, Signal)>)
      reads this, w
    {
      && sent <= [(pgid, SIGTERM), (pgid, SIGKILL)]
      && (|sent| < 2 ==> exists t: nat :: from <= t <= w.now && NoLiveHolder(w.at(t), pgid))
    }

    // Asks the group to stop and kills it only if members remain: SIGTERM first,
    // SIGKILL after every SIGTERM, nothing at all to an empty group, and, if the
    // leader is reserved until the call returns, nothing outside the group.
    method Terminate(w: World, grace: nat, settle: nat, ghost since: nat, ghost leader: nat)
      requires w.Valid() && since <= w.now
      modifies w`now, w`delivered, w`groupKills, this`probeFailed, this`members, this`looks
      ensures w.Valid() && old(w.now) <= w.now
      ensures old(w.groupKills) <= w.groupKills
      ensures if Value().MaySignal() then Escalated(w, old(w.now), w.groupKills[|old(w.groupKills)|..])
              else w.groupKills == old(w.groupKills)
      // What it sent last had the whole settle time to take effect.
      ensures |w.groupKills| == |old(w.groupKills)| + 2 ==>
        looks == old(looks) + grace + 2 + settle + 1 || MayReportEmpty(Value(), w.at(w.now))
      ensures |old(w.delivered)| <= |w.delivered|
      ensures Reserved(w.at, since, w.now, leader, pgid) ==> OnlyMembers(w, |old(w.delivered)|, leader)
      ensures w.delivered[..|old(w.delivered)|] == old(w.delivered)
      ensures !Value().MaySignal() ==> w.delivered == old(w.delivered)
      ensures forall j, k | |old(w.delivered)| <= j < k < |w.delivered| ::
        w.delivered[j].signal == SIGKILL ==> w.delivered[k].signal == SIGKILL
    {
      ghost var from := |w.delivered|;
      var s := State(w);
      if s.GroupEmpty? { return; }
      SignalOwn(w, SIGTERM, since, leader, from);
      ghost var asked := w.delivered;
      var emptied := WaitWhileLive(w, grace);
      if emptied { return; }
      SignalOwn(w, SIGKILL, since, leader, from);
      assert forall k | from <= k < |asked| :: w.delivered[k] == asked[k];
      emptied := WaitWhileLive(w, settle);
    }
  }
}
