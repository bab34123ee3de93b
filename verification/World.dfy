/**
 What one command can see of a process table that changes under it.

 The whole history of the table is fixed in advance and arbitrary; every system
 call moves the clock forward by any amount and then observes or acts on the
 table of that one instant. So whatever holds of a method here holds for every
 interleaving of its calls with forks, exits, reaps and pid reuse. Signals never
 change the history: a process may exit at any instant anyway.
 */
module World {
  import opened Kernel

  // The identity of a boot and of the namespaces pids are read in; "" is unknown.
  datatype Host = Host(bootID: string, pidNS: string, timeNS: string)

  // One process group of a daemon's record: pgid 0 while the launch is pending,
  // leaderStart 0 where the start time is unknown.
  datatype Group = Group(name: string, pgid: int, leaderStart: nat)

  datatype ProcInfo = ProcInfo(exited: bool, pgid: int, startTime: nat)

  datatype StatResult = Info(info: ProcInfo) | NotExist | Unsupported | StatFailed
  datatype OpenResult = Opened(fd: nat) | NoProcess | OpenDenied
  datatype ProbeResult = Reached | NoGroup | NotPermitted

  // What an observation of a group concludes.
  datatype GroupState = GroupEmpty | GroupOwned | GroupUnavailable

  datatype Signal = SIGTERM | SIGKILL
  datatype Delivery = Delivery(target: nat, signal: Signal)

  predicate Holds(t: Table, i: nat, pid: int)
  {
    i < |t.procs| && t.procs[i].Unreaped() && t.procs[i].pid == pid
  }

  predicate InGroup(t: Table, i: nat, pgid: int)
  {
    i < |t.procs| && t.procs[i].Unreaped() && t.procs[i].pgid == pgid
  }

  predicate Describes(info: ProcInfo, p: Proc)
  {
    info == ProcInfo(p.status == Zombie, p.pgid, p.start)
  }

  class World {
    const at: History
    const linux: bool
    const host: Host
    const ownProcfs: bool
    // Whether EPERM from a group probe proves a member exists.
    const epermProvesMember: bool
    const selfPid: int
    const selfGroup: int
    // The instants at which the system may refuse a call for a reason of its own: a
    // denied permission, an unreadable procfs, a feature that is missing.
    const denies: nat -> bool

    var now: nat
    var delivered: seq<Delivery>
    // Every signal sent through a pidfd and every group signal, delivered or not.
    ghost var attempted: seq<Delivery>
    ghost var groupKills: seq<(int, Signal)>

    ghost predicate Valid()
      reads this
    {
      Behaviour(at) && (host.bootID != "" ==> host.bootID == at(0).boot)
    }

    method Advance()
      modifies this`now
      ensures old(now) <= now
    {
      var d :| 0 <= d;
      now := now + d;
    }

    // /proc/<pid>/stat: describes whoever holds the pid at that instant.
    method ProcStat(pid: int) returns (r: StatResult)
      modifies this`now
      ensures old(now) <= now
      ensures r.Info? ==> exists i: nat :: Holds(at(now), i, pid) && Describes(r.info, at(now).procs[i])
      ensures r.NotExist? ==> forall i: nat :: !Holds(at(now), i, pid)
      ensures !denies(now) ==> r.Info? || r.NotExist?
    {
      Advance();
      var t := at(now);
      if i :| 0 <= i < |t.procs| && Holds(t, i, pid) {
        r := Info(ProcInfo(t.procs[i].status == Zombie, t.procs[i].pgid, t.procs[i].start));
        if denies(now) {
          if * { r := StatFailed; } else if * { r := Unsupported; }
        }
      } else {
        r := NotExist;
      }
    }

    // A pidfd keeps naming the process that held the pid when it was opened.
    method PidfdOpen(pid: int) returns (r: OpenResult)
      modifies this`now
      ensures old(now) <= now
      ensures r.Opened? ==> Holds(at(now), r.fd, pid)
      ensures r.NoProcess? ==> forall i: nat :: !Holds(at(now), i, pid)
      ensures !denies(now) ==> !r.OpenDenied?
    {
      Advance();
      var t := at(now);
      if i :| 0 <= i < |t.procs| && Holds(t, i, pid) {
        r := Opened(i);
        var refused: bool := *;
        if denies(now) && refused { r := OpenDenied; }
      } else {
        r := NoProcess;
      }
    }

    // Signal 0 through a pidfd: success proves the process is unreaped.
    method PidfdAlive(fd: nat) returns (ok: bool)
      modifies this`now
      ensures old(now) <= now
      ensures ok ==> fd < |at(now).procs| && at(now).procs[fd].Unreaped()
      ensures !denies(now) ==> (ok <==> fd < |at(now).procs| && at(now).procs[fd].Unreaped())
    {
      Advance();
      var t := at(now);
      ok := fd < |t.procs| && t.procs[fd].Unreaped();
      var refused: bool := *;
      if denies(now) && refused { ok := false; }
    }

    method PidfdSend(fd: nat, signal: Signal) returns (ok: bool)
      modifies this`now, this`delivered, this`attempted
      ensures old(now) <= now
      ensures ok ==> fd < |at(now).procs| && at(now).procs[fd].Unreaped()
      ensures !denies(now) ==> (ok <==> fd < |at(now).procs| && at(now).procs[fd].Unreaped())
      ensures delivered == if ok then old(delivered) + [Delivery(fd, signal)] else old(delivered)
      ensures attempted == old(attempted) + [Delivery(fd, signal)]
    {
      attempted := attempted + [Delivery(fd, signal)];
      ok := PidfdAlive(fd);
      if ok { delivered := delivered + [Delivery(fd, signal)]; }
    }

    // kill(-pgid, 0).
    method ProbeGroup(pgid: int) returns (r: ProbeResult)
      modifies this`now
      ensures old(now) <= now
      ensures r.NoGroup? <==> forall i: nat :: !InGroup(at(now), i, pgid)
      ensures !denies(now) ==> !r.NotPermitted?
    {
      Advance();
      var t := at(now);
      if i :| 0 <= i < |t.procs| && InGroup(t, i, pgid) {
        r := Reached;
        var refused: bool := *;
        if denies(now) && refused { r := NotPermitted; }
      } else {
        r := NoGroup;
      }
    }

    // kill(-pgid, signal) reaches every unreaped process holding the number, and
    // nothing else. A member may exist that this process may not signal.
    method KillGroup(pgid: int, signal: Signal) returns (r: ProbeResult)
      modifies this`now, this`delivered, this`groupKills
      ensures old(now) <= now && groupKills == old(groupKills) + [(pgid, signal)]
      ensures |old(delivered)| <= |delivered| && delivered[..|old(delivered)|] == old(delivered)
      ensures forall k | |old(delivered)| <= k < |delivered| ::
        delivered[k].signal == signal && InGroup(at(now), delivered[k].target, pgid)
      ensures r.NoGroup? ==> forall i: nat :: !InGroup(at(now), i, pgid)
      ensures r.Reached? ==> forall i: nat | InGroup(at(now), i, pgid) ::
        Delivery(i, signal) in delivered[|old(delivered)|..]
      ensures !denies(now) ==> !r.NotPermitted?
    {
      groupKills := groupKills + [(pgid, signal)];
      Advance();
      var t := at(now);
      var sent: seq<Delivery> := [];
      for k := 0 to |t.procs|
        invariant forall d | d in sent :: d.signal == signal && InGroup(t, d.target, pgid)
        invariant forall i | 0 <= i < k && InGroup(t, i, pgid) :: Delivery(i, signal) in sent
      {
        if InGroup(t, k, pgid) { sent := sent + [Delivery(k, signal)]; }
      }
      if sent == [] {
        assert forall i: nat | InGroup(t, i, pgid) :: Delivery(i, signal) in sent;
        return NoGroup;
      }
      var refused: bool := *;
      if denies(now) && refused { return NotPermitted; }
      delivered := delivered + sent;
      r := Reached;
    }

    // One atomic /proc walk for the group's members. Every live member is found;
    // a zombie is listed as well when its thread list cannot be read.
    method MemberPIDs(pgid: int) returns (pids: seq<int>, ok: bool)
      modifies this`now
      ensures old(now) <= now
      ensures ok && pids == [] ==> NoLiveHolder(at(now), pgid)
      ensures ok ==> forall i | 0 <= i < |at(now).procs| && at(now).procs[i].status == Live
                     && at(now).procs[i].pgid == pgid :: at(now).procs[i].pid in pids
      ensures pids != [] ==> exists i: nat :: InGroup(at(now), i, pgid)
      ensures !denies(now) ==> ok
    {
      Advance();
      ok := *;
      ok := ok || !denies(now);
      pids := [];
      var t := at(now);
      for k := 0 to |t.procs|
        invariant forall i | 0 <= i < k && t.procs[i].status == Live && t.procs[i].pgid == pgid ::
          t.procs[i].pid in pids
        invariant pids != [] ==> exists i: nat :: InGroup(t, i, pgid)
      {
        var p := t.procs[k];
        var taskListUnreadable: bool := *;
        if p.pgid == pgid && (p.status == Live || (p.status == Zombie && taskListUnreadable)) {
          assert InGroup(t, k, pgid);
          pids := pids + [p.pid];
        }
      }
    }

    // Counts every visible process in the group, dead or alive.
    method GroupHolders(pgid: int) returns (n: nat, ok: bool)
      modifies this`now
      ensures old(now) <= now
      ensures n == 0 <==> forall i: nat :: !InGroup(at(now), i, pgid)
      ensures !denies(now) ==> ok
    {
      Advance();
      ok := *;
      ok := ok || !denies(now);
      n := 0;
      var t := at(now);
      for k := 0 to |t.procs|
        invariant n == 0 <==> forall i | 0 <= i < k :: !InGroup(t, i, pgid)
      {
        if InGroup(t, k, pgid) { n := n + 1; }
      }
    }
  }

  // No call made from one instant to another is refused for a reason of its own.
  ghost predicate Fair(w: World, from: nat, to: nat)
  {
    forall t: nat | from <= t <= to :: !w.denies(t)
  }

  // At some instant in between somebody held the number.
  ghost predicate Held(at: History, from: nat, to: nat, pgid: int)
  {
    exists i: nat, t: nat :: from <= t <= to && InGroup(at(t), i, pgid)
  }
}
