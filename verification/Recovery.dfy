/**
 What becomes of process groups that outlive their daemon
 (internal/runner/recover_unix.go).

 Two claims are kept through every step. A signal is only ever sent through a
 pidfd whose process was proven, at one instant, to be an unreaped member of the
 recorded group while that group's recorded leader was itself unreaped. And a
 verdict of empty or terminated is only reached at an instant when the recorded
 group had no live member, after which the group is never touched again.
 */
module Recovery {
  import opened Wrappers
  import opened Kernel
  import opened World

  datatype Mode = Graceful | Force | AssessOnly
  datatype Outcome = Undecided | Empty | Terminated | Unknown | LiveOutcome
  datatype Reason =
    | NoReason | Rebooted | BootUnknown | NoMembers | PgidReused | LeaderProven | LaunchPending
    | InvalidPgid | OwnGroup | LeaderGone | LeaderLeftGroup | LeaderStartUnknown
    | NamespaceMismatch | EnumerationFailed | SignalUnavailable | SurvivedSigkill | UnprovenMembers

  // `at` is the instant whose table proves the pidfd's process a member.
  datatype Pin = Pin(fd: nat, pid: int, at: nat)

  // What recovery did to one group number, in order.
  datatype Touch = Probed(empty: bool) | Signalled(signal: Signal) | Resolved

  // ── what is claimed ─────────────────────────────────────────────────────────

  // The group entry g names the group founded by `leader`.
  ghost predicate RecordedAs(t: Table, g: Group, leader: nat)
  {
    Leads(t, leader, g.pgid) && (g.leaderStart != 0 ==> t.procs[leader].start == g.leaderStart)
  }

  // No group that g named at instant `base` has a live member at instant `t`.
  ghost predicate Gone(at: History, base: nat, t: nat, g: Group)
  {
    forall leader: nat | RecordedAs(at(base), g, leader) :: !LiveIn(at(t), leader)
  }

  // Process i is an unreaped member of the group g names, whose recorded leader
  // is unreaped as well.
  ghost predicate MemberOf(t: Table, i: nat, g: Group)
  {
    exists leader: nat :: Led(t, leader, g) && i < |t.procs| && t.procs[i].Unreaped() && t.procs[i].group == leader
  }

  ghost predicate Led(t: Table, leader: nat, g: Group)
  {
    Leads(t, leader, g.pgid) && t.procs[leader].start == g.leaderStart && t.procs[leader].Unreaped()
  }

  // ── what calls can be relied on ─────────────────────────────────────────────

  // Process i is there at the first instant and still running at the last.
  ghost predicate Stays(at: History, from: nat, to: nat, i: nat)
  {
    i < |at(from).procs| && i < |at(to).procs| && at(to).procs[i].status == Live
  }

  // A member that runs throughout.
  ghost predicate MemberStays(at: History, from: nat, to: nat, i: nat, pgid: int)
  {
    Stays(at, from, to, i) && at(from).procs[i].pgid == pgid
  }

  // The recorded leader stays unreaped throughout.
  ghost predicate LeaderKept(at: History, from: nat, to: nat, leader: nat, g: Group)
  {
    Led(at(from), leader, g) && leader < |at(to).procs| && at(to).procs[leader].Unreaped()
  }

  // The recorded group is there throughout, with its leader unreaped and a member
  // running, it is not this process's own, and no call is refused.
  ghost predicate AliveThroughout(w: World, from: nat, to: nat, g: Group)
  {
    && Fair(w, from, to) && g.pgid > 1 && g.pgid != w.selfGroup && g.leaderStart != 0
    && exists leader: nat, i: nat :: LeaderKept(w.at, from, to, leader, g) && MemberStays(w.at, from, to, i, g.pgid)
  }

  lemma StaysBetween(at: History, from: nat, t: nat, to: nat, i: nat, pgid: int)
    requires Behaviour(at) && from <= t <= to && MemberStays(at, from, to, i, pgid)
    ensures i < |at(t).procs| && at(t).procs[i].status == Live && at(t).procs[i].pgid == pgid
    ensures at(t).procs[i].pid == at(from).procs[i].pid && InGroup(at(t), i, pgid)
  {
    BehaviourEvolves(at, from, t);
    BehaviourEvolves(at, t, to);
  }

  // Where a member runs throughout, no instant in between is without one.
  lemma MemberIsThere(at: History, from: nat, t: nat, to: nat, i: nat, pgid: int)
    requires Behaviour(at) && from <= t <= to && MemberStays(at, from, to, i, pgid)
    ensures !NoLiveHolder(at(t), pgid)
  {
    StaysBetween(at, from, t, to, i, pgid);
  }

  lemma MemberStaysWithin(at: History, from: nat, a: nat, b: nat, to: nat, i: nat, pgid: int)
    requires Behaviour(at) && from <= a <= b <= to && MemberStays(at, from, to, i, pgid)
    ensures MemberStays(at, a, b, i, pgid)
  {
    StaysBetween(at, from, a, to, i, pgid);
    StaysBetween(at, from, b, to, i, pgid);
  }

  lemma LeaderKeptWithin(at: History, from: nat, a: nat, b: nat, to: nat, leader: nat, g: Group)
    requires Behaviour(at) && from <= a <= b <= to && LeaderKept(at, from, to, leader, g)
    ensures LeaderKept(at, a, b, leader, g)
  {
    BehaviourEvolves(at, from, a);
    BehaviourEvolves(at, a, b);
    BehaviourEvolves(at, b, to);
  }

  lemma AliveWithin(w: World, from: nat, a: nat, b: nat, to: nat, g: Group)
    requires w.Valid() && from <= a <= b <= to
    ensures AliveThroughout(w, from, to, g) ==> AliveThroughout(w, a, b, g)
  {
    if AliveThroughout(w, from, to, g) {
      var leader: nat, i: nat :| LeaderKept(w.at, from, to, leader, g) && MemberStays(w.at, from, to, i, g.pgid);
      LeaderKeptWithin(w.at, from, a, b, to, leader, g);
      MemberStaysWithin(w.at, from, a, b, to, i, g.pgid);
    }
  }

  lemma HeldWithin(at: History, from: nat, a: nat, b: nat, to: nat, pgid: int)
    requires from <= a <= b <= to
    ensures Held(at, a, b, pgid) ==> Held(at, from, to, pgid)
  {
  }

  lemma AliveIsFair(w: World, from: nat, to: nat, g: Group)
    requires from <= to
    ensures AliveThroughout(w, from, to, g) ==>
      Fair(w, from, to) && !w.denies(to) && g.leaderStart != 0 && g.pgid > 1 && g.pgid != w.selfGroup
  {
  }

  // ── lemmas on instants ──────────────────────────────────────────────────────

  lemma NoHolderGone(at: History, base: nat, seen: nat, t: nat, g: Group)
    requires Behaviour(at) && base <= seen <= t && NoLiveHolder(at(seen), g.pgid)
    ensures Gone(at, base, t, g)
  {
    BehaviourEvolves(at, base, seen);
    BehaviourEvolves(at, seen, t);
    forall leader: nat | RecordedAs(at(base), g, leader)
      ensures !LiveIn(at(t), leader)
    {
      assert Leads(at(seen), leader, g.pgid);
      NoHolderNoMember(at(seen), leader, g.pgid);
    }
  }

  lemma ReusedGone(at: History, base: nat, seen: nat, t: nat, g: Group, other: nat)
    requires Behaviour(at) && base <= seen <= t && g.leaderStart != 0
    requires Holds(at(seen), other, g.pgid) && at(seen).procs[other].start != g.leaderStart
    ensures Gone(at, base, t, g)
  {
    BehaviourEvolves(at, base, seen);
    BehaviourEvolves(at, seen, t);
    forall leader: nat | RecordedAs(at(base), g, leader)
      ensures !LiveIn(at(t), leader)
    {
      assert Leads(at(seen), leader, g.pgid) && leader != other;
      ReusedNumberNoMember(at(seen), leader, other);
    }
  }

  lemma GoneStays(at: History, base: nat, t: nat, t': nat, g: Group)
    requires Behaviour(at) && base <= t <= t' && Gone(at, base, t, g)
    ensures Gone(at, base, t', g)
  {
    BehaviourEvolves(at, base, t);
    BehaviourEvolves(at, t, t');
  }

  // The holder of the recorded number, with the recorded start time and leading
  // its own number, is the founder of the recorded group.
  lemma HolderLeads(at: History, t: nat, i: nat, g: Group)
    requires Behaviour(at) && Holds(at(t), i, g.pgid)
    requires at(t).procs[i].start == g.leaderStart && at(t).procs[i].pgid == g.pgid
    ensures Led(at(t), i, g)
  {
    BehaviourEvolves(at, t, t);
  }

  // A process found under the number while the leader stayed unreaped is a
  // member: the second leader check is what proves the scan.
  lemma BracketedScan(at: History, first: nat, seen: nat, second: nat, leader: nat, fd: nat, g: Group)
    requires Behaviour(at) && first <= seen <= second
    requires Led(at(first), leader, g)
    requires leader < |at(second).procs| && at(second).procs[leader].Unreaped()
    requires InGroup(at(seen), fd, g.pgid)
    ensures MemberOf(at(seen), fd, g)
  {
    BehaviourEvolves(at, first, seen);
    BehaviourEvolves(at, seen, second);
    assert Led(at(seen), leader, g);
    NumberReachesOneGroup(at(seen), leader, fd);
  }

  // A pidfd whose process is unreaped later held its pid in between, so a read
  // of that pid in between described it.
  lemma ReadDescribesPidfd(at: History, openedAt: nat, seen: nat, later: nat, fd: nat, reader: nat, pid: int)
    requires Behaviour(at) && openedAt <= seen <= later
    requires Holds(at(openedAt), fd, pid) && Holds(at(seen), reader, pid)
    requires fd < |at(later).procs| && at(later).procs[fd].Unreaped()
    ensures reader == fd
  {
    BehaviourEvolves(at, openedAt, seen);
    BehaviourEvolves(at, seen, later);
    assert Holds(at(seen), fd, pid);
  }

  // ── deciders ────────────────────────────────────────────────────────────────

  // What the host alone decides for a whole record; NoReason if its numbers have to be
  // looked up.
  function HostVerdict(linux: bool, recorded: Host, current: Host, ownProcfs: bool): (r: (Outcome, Reason))
    // Only another boot proves anything by itself.
    ensures r.0.Empty? <==> recorded.bootID != "" && current.bootID != "" && recorded.bootID != current.bootID
    // Pids are read on only in the same namespaces, through a procfs of our own, and
    // on Linux only in the same known boot.
    ensures r.1.NoReason? <==>
      && recorded.pidNS == current.pidNS && recorded.timeNS == current.timeNS && ownProcfs && !r.0.Empty?
      && (linux ==> recorded.bootID == current.bootID != "")
    ensures !r.0.Terminated?
    ensures !r.1.NoReason? ==> r.0.Empty? || r.0.Unknown?
  {
    if linux && (recorded.bootID == "" || current.bootID == "") then (Unknown, BootUnknown)
    else if recorded.bootID != "" && current.bootID != "" && recorded.bootID != current.bootID then (Empty, Rebooted)
    else if recorded.pidNS != current.pidNS || recorded.timeNS != current.timeNS || !ownProcfs then
      (Unknown, NamespaceMismatch)
    else (Undecided, NoReason)
  }

  function LeaderReason(s: StatResult, g: Group): Reason
  {
    match s
    case NotExist => LeaderGone
    case Unsupported => LeaderStartUnknown
    case StatFailed => EnumerationFailed
    case Info(info) =>
      if info.startTime != g.leaderStart then PgidReused
      else if info.pgid != g.pgid then LeaderLeftGroup
      else NoReason
  }

  // Emptiness of a bare number: either the group probe finds no holder at all, or two
  // walks both find no member and account for every holder the probe reported.
  method GroupProvenEmpty(w: World, pgid: int) returns (empty: bool, members: seq<int>, known: bool)
    requires w.Valid()
    modifies w`now
    ensures w.Valid() && old(w.now) <= w.now
    ensures empty ==> pgid > 1 && exists t: nat :: old(w.now) <= t <= w.now && NoLiveHolder(w.at(t), pgid)
    ensures empty || !known ==> members == []
    ensures !empty && known ==> members != []
    // Every other answer has its reason: somebody held the number, or a call was
    // refused, or the members were gone between two looks.
    ensures pgid > 1 && !empty ==> Held(w.at, old(w.now), w.now, pgid)
    ensures pgid > 1 && !known ==>
      !Fair(w, old(w.now), w.now) || exists t: nat :: old(w.now) <= t <= w.now && NoLiveHolder(w.at(t), pgid)
  {
    if pgid <= 1 { return false, [], false; }
    var probe := w.ProbeGroup(pgid);
    if probe.NoGroup? {
      assert NoLiveHolder(w.at(w.now), pgid) by {
        var t := w.at(w.now);
        forall i | 0 <= i < |t.procs| && t.procs[i].status == Live
          ensures t.procs[i].pgid != pgid
        {
          assert !InGroup(t, i, pgid);
        }
      }
      return true, [], true;
    }
    var hiddenMember := w.epermProvesMember && probe.NotPermitted?;
    for scan := 0 to 2
      invariant w.Valid() && old(w.now) <= w.now
      invariant scan > 0 ==> exists t: nat :: old(w.now) <= t <= w.now && NoLiveHolder(w.at(t), pgid)
      invariant Held(w.at, old(w.now), w.now, pgid) && (hiddenMember ==> !Fair(w, old(w.now), w.now))
    {
      if scan > 0 { w.Advance(); }
      var pids, ok := w.MemberPIDs(pgid);
      if !ok { return false, [], false; }
      if |pids| > 0 { return false, pids, true; }
      if hiddenMember { return false, [], false; }
    }
    if probe.Reached? {
      var n, ok := w.GroupHolders(pgid);
      if !ok || n == 0 { return false, [], false; }
    }
    return true, [], true;
  }

  // A pin's process held the pin's pid, in the group, when it was pinned.
  ghost predicate Pins(w: World, from: nat, to: nat, pins: seq<Pin>, pgid: int)
  {
    forall p | p in pins :: from <= p.at <= to && InGroup(w.at(p.at), p.fd, pgid) && Holds(w.at(p.at), p.fd, p.pid)
  }

  predicate Excluded(w: World, have: seq<Pin>, pid: int)
  {
    pid == w.selfPid || exists q | q in have :: q.pid == pid
  }

  // The members that run throughout and hold one of the pids are pinned.
  ghost predicate AllPinned(w: World, from: nat, to: nat, pids: seq<int>, have: seq<Pin>, pins: seq<Pin>, pgid: int)
  {
    forall i: nat | MemberStays(w.at, from, to, i, pgid) && w.at(from).procs[i].pid in pids
               && !Excluded(w, have, w.at(from).procs[i].pid) :: Pinned(pins, i)
  }

  // Pins the members a walk lists, except this process and those in `have`. A pin stays
  // only if its process was read to be in the group and was still unreaped after that.
  // If no call is refused, no member that runs throughout is missed.
  method PinMembers(w: World, pgid: int, have: seq<Pin>) returns (pins: seq<Pin>, ok: bool)
    requires w.Valid()
    modifies w`now
    ensures w.Valid() && old(w.now) <= w.now
    ensures !ok ==> pins == []
    ensures Pins(w, old(w.now), w.now, pins, pgid)
    ensures forall p | p in pins :: !Excluded(w, have, p.pid)
    ensures Fair(w, old(w.now), w.now) ==> ok
    ensures Fair(w, old(w.now), w.now) ==>
      forall i: nat | MemberStays(w.at, old(w.now), w.now, i, pgid) && !Excluded(w, have, w.at(old(w.now)).procs[i].pid) ::
        Pinned(pins, i)
  {
    pins := [];
    var pids;
    ghost var start := w.now;
    pids, ok := w.MemberPIDs(pgid);
    ghost var listed := w.now;
    if !ok { return; }
    for k := 0 to |pids|
      invariant w.Valid() && start <= listed <= w.now && Pins(w, start, w.now, pins, pgid)
      invariant forall p | p in pins :: !Excluded(w, have, p.pid)
      invariant Fair(w, start, w.now) ==> AllPinned(w, start, w.now, pids[..k], have, pins, pgid)
    {
      ghost var before, earlier := w.now, pins;
      pins := PinOne(w, pgid, have, pins, pids[k]);
      if Fair(w, start, w.now) { OneMorePinned(w, start, before, w.now, pids, k, have, earlier, pins, pgid); }
    }
    if Fair(w, start, w.now) { ListedMembers(w, start, listed, w.now, pids, have, pins, pgid); }
  }

  lemma ListedMembers(w: World, start: nat, listed: nat, now: nat, pids: seq<int>, have: seq<Pin>, pins: seq<Pin>, pgid: int)
    requires w.Valid() && start <= listed <= now && AllPinned(w, start, now, pids[..|pids|], have, pins, pgid)
    requires forall i | 0 <= i < |w.at(listed).procs| && w.at(listed).procs[i].status == Live
               && w.at(listed).procs[i].pgid == pgid :: w.at(listed).procs[i].pid in pids
    ensures forall i: nat | MemberStays(w.at, start, now, i, pgid) && !Excluded(w, have, w.at(start).procs[i].pid) ::
      Pinned(pins, i)
  {
    assert pids[..|pids|] == pids;
    forall i: nat | MemberStays(w.at, start, now, i, pgid) && !Excluded(w, have, w.at(start).procs[i].pid)
      ensures Pinned(pins, i)
    {
      StaysBetween(w.at, start, listed, now, i, pgid);
    }
  }

  lemma OneMorePinned(w: World, start: nat, before: nat, now: nat, pids: seq<int>, k: nat, have: seq<Pin>,
                      earlier: seq<Pin>, pins: seq<Pin>, pgid: int)
    requires w.Valid() && start <= before <= now && k < |pids| && earlier <= pins
    requires AllPinned(w, start, before, pids[..k], have, earlier, pgid)
    requires forall i: nat | MemberStays(w.at, before, now, i, pgid) && w.at(before).procs[i].pid == pids[k]
               && !Excluded(w, have, pids[k]) :: Pinned(pins, i)
    ensures AllPinned(w, start, now, pids[..k + 1], have, pins, pgid)
  {
    assert pids[..k + 1] == pids[..k] + [pids[k]];
    forall i: nat | MemberStays(w.at, start, now, i, pgid) && w.at(start).procs[i].pid in pids[..k + 1]
               && !Excluded(w, have, w.at(start).procs[i].pid)
      ensures Pinned(pins, i)
    {
      MemberStaysWithin(w.at, start, start, before, now, i, pgid);
      MemberStaysWithin(w.at, start, before, now, now, i, pgid);
      StaysBetween(w.at, start, before, now, i, pgid);
      if w.at(start).procs[i].pid in pids[..k] {
        var p :| p in earlier && p.fd == i;
        assert p in pins;
      }
    }
  }

  // A member that runs throughout is the only holder of its pid.
  lemma MemberHolds(w: World, start: nat, u: nat, now: nat, pid: int, pgid: int)
    requires w.Valid() && start <= u <= now
    ensures forall i: nat | MemberStays(w.at, start, now, i, pgid) && w.at(start).procs[i].pid == pid ::
      && Holds(w.at(u), i, pid) && w.at(u).procs[i].status == Live && w.at(u).procs[i].pgid == pgid
      && forall j: nat | Holds(w.at(u), j, pid) :: j == i
  {
    BehaviourEvolves(w.at, start, u);
    forall i: nat | MemberStays(w.at, start, now, i, pgid) && w.at(start).procs[i].pid == pid
      ensures Holds(w.at(u), i, pid) && w.at(u).procs[i].status == Live && w.at(u).procs[i].pgid == pgid
      ensures forall j: nat | Holds(w.at(u), j, pid) :: j == i
    {
      StaysBetween(w.at, start, u, now, i, pgid);
    }
  }

  method PinOne(w: World, pgid: int, have: seq<Pin>, pins: seq<Pin>, pid: int) returns (pins': seq<Pin>)
    requires w.Valid() && (forall p | p in pins :: !Excluded(w, have, p.pid))
    modifies w`now
    ensures w.Valid() && old(w.now) <= w.now && pins <= pins'
    ensures forall p | p in pins' && p !in pins ::
      old(w.now) <= p.at <= w.now && InGroup(w.at(p.at), p.fd, pgid) && Holds(w.at(p.at), p.fd, p.pid)
    ensures forall p | p in pins' :: !Excluded(w, have, p.pid)
    ensures Fair(w, old(w.now), w.now) && !Excluded(w, have, pid) ==>
      forall i: nat | MemberStays(w.at, old(w.now), w.now, i, pgid) && w.at(old(w.now)).procs[i].pid == pid :: Pinned(pins', i)
  {
    pins' := pins;
    if Excluded(w, have, pid) { return; }
    ghost var start := w.now;
    var got := w.PidfdOpen(pid);
    ghost var openedAt := w.now;
    MemberHolds(w, start, openedAt, openedAt, pid, pgid);
    if !got.Opened? { return; }
    var stat := w.ProcStat(pid);
    var seen := w.now;
    MemberHolds(w, start, seen, seen, pid, pgid);
    ghost var reader: nat;
    if stat.Info? { reader :| Holds(w.at(seen), reader, pid) && Describes(stat.info, w.at(seen).procs[reader]); }
    var taskListUnreadable: bool := *;
    if !stat.Info? || stat.info.pgid != pgid || (stat.info.exited && !taskListUnreadable) { return; }
    var alive := w.PidfdAlive(got.fd);
    MemberHolds(w, start, w.now, w.now, pid, pgid);
    MemberHolds(w, start, openedAt, w.now, pid, pgid);
    if !alive { return; }
    ReadDescribesPidfd(w.at, openedAt, seen, w.now, got.fd, reader, pid);
    pins' := pins + [Pin(got.fd, pid, seen)];
    assert Pin(got.fd, pid, seen) in pins';
  }

  predicate Pinned(pins: seq<Pin>, target: nat)
  {
    exists p | p in pins :: p.fd == target
  }

  // Each pinned process was sent the signal, delivered or not.
  ghost predicate Tried(attempts: seq<Delivery>, ps: seq<Pin>, sig: Signal)
  {
    forall p | p in ps :: Delivery(p.fd, sig) in attempts
  }

  ghost predicate Only(ds: seq<Delivery>, sig: Signal)
  {
    forall d | d in ds :: d.signal == sig
  }

  // The signals went to pinned processes.
  ghost predicate Aimed(ds: seq<Delivery>, ps: seq<Pin>, sig: Signal)
  {
    Only(ds, sig) && forall d | d in ds :: Pinned(ps, d.target)
  }

  // Each pinned process still unreaped at the end got the signal.
  ghost predicate Got(w: World, to: nat, deliveries: seq<Delivery>, ps: seq<Pin>, sig: Signal)
  {
    forall p | p in ps && p.fd < |w.at(to).procs| && w.at(to).procs[p.fd].Unreaped() ::
      Delivery(p.fd, sig) in deliveries
  }

  // ── one recorded group ──────────────────────────────────────────────────────

  class Recovery {
    const group: Group
    var leader: Option<nat>
    var pins: seq<Pin>
    var proven: bool
    var emptied: bool
    var outcome: Outcome
    var reason: Reason
    var state: GroupState
    var signals: seq<Signal>
    var pids: seq<int>
    var liveMembers: nat
    ghost var trail: seq<Touch>
    // What was pinned when the group was proven ours.
    ghost var first: seq<Pin>
    // The instants at which the leader was proven and the verdict established.
    ghost var provenAt: nat
    ghost var decidedAt: nat

    constructor (g: Group)
      ensures group == g && Fresh()
    {
      group := g;
      leader, pins, proven, emptied := None, [], false, false;
      outcome, reason, state := Undecided, NoReason, GroupEmpty;
      signals, pids, liveMembers := [], [], 0;
      trail, first, provenAt, decidedAt := [], [], 0, 0;
    }

    ghost predicate Fresh()
      reads this
    {
      leader.None? && pins == [] && !proven && !emptied && outcome.Undecided? && trail == []
    }

    // Found empty: nothing may probe or signal the number any more.
    ghost predicate Closed()
      reads this
    {
      trail != [] && trail[|trail| - 1] in {Probed(true), Resolved}
    }

    ghost predicate Quiet()
      reads this
    {
      forall k | 0 <= k < |trail| - 1 :: trail[k] !in {Probed(true), Resolved}
    }

    ghost predicate PinsProven(w: World, base: nat, now: nat)
      reads this
    {
      forall p | p in pins ::
        base <= p.at <= now && MemberOf(w.at(p.at), p.fd, group) && Holds(w.at(p.at), p.fd, p.pid)
    }

    // Unless a call was refused, every member that ran throughout is pinned.
    ghost predicate Complete(w: World, from: nat, to: nat)
      reads this
    {
      Fair(w, from, to) ==>
        forall i: nat | MemberStays(w.at, from, to, i, group.pgid) && w.at(from).procs[i].pid != w.selfPid :: Pinned(pins, i)
    }

    ghost predicate LeaderProven(w: World, now: nat)
      reads this
    {
      leader.Some? ==> provenAt <= now && Led(w.at(provenAt), leader.value, group)
    }

    // A verdict that says nothing is left is true, from decidedAt on.
    ghost predicate Sound(w: World, base: nat, now: nat)
      reads this
    {
      outcome.Empty? || outcome.Terminated? ==>
        && group.pgid > 1 && base <= decidedAt <= now && Gone(w.at, base, decidedAt, group)
        && Closed()
    }

    ghost predicate Valid(w: World, base: nat, now: nat)
      reads this
    {
      && Quiet() && PinsProven(w, base, now) && LeaderProven(w, now) && Sound(w, base, now)
      && (emptied ==> Closed() && group.pgid > 1 && base <= decidedAt <= now && Gone(w.at, base, decidedAt, group))
      && (!emptied && outcome.Undecided? ==> !Closed())
    }

    lemma ValidLater(w: World, base: nat, a: nat, b: nat)
      requires a <= b
      ensures Valid(w, base, a) ==> Valid(w, base, b)
    {
      hide Gone, MemberOf, Led, Holds;
    }

    ghost predicate Finished()
      reads this
    {
      !outcome.Undecided?
    }

    method Finish(o: Outcome, why: Reason)
      modifies this`outcome, this`reason, this`state
      ensures outcome == o && reason == why
      ensures state == (if o.Empty? || o.Terminated? then GroupEmpty
                        else if liveMembers > 0 then GroupOwned else GroupUnavailable)
    {
      outcome, reason := o, why;
      if o.Empty? || o.Terminated? {
        state := GroupEmpty;
      } else if liveMembers > 0 {
        state := GroupOwned;
      } else {
        state := GroupUnavailable;
      }
    }

    method Release()
      modifies this`leader, this`pins
      ensures leader.None? && pins == []
    {
      leader, pins := None, [];
    }

    // Probes the number. The precondition is the rule: never once found empty.
    method ProveEmpty(w: World, ghost base: nat) returns (empty: bool, members: seq<int>, known: bool)
      requires w.Valid() && base <= w.now && !Closed() && Quiet()
      modifies w`now, this`trail, this`decidedAt
      ensures w.Valid() && old(w.now) <= w.now && Quiet() && Closed() == empty
      ensures trail == old(trail) + [Probed(empty)]
      ensures empty ==> group.pgid > 1 && decidedAt == w.now && Gone(w.at, base, w.now, group)
      ensures !empty ==> decidedAt == old(decidedAt)
      ensures empty || !known ==> members == []
      ensures !empty && known ==> members != []
      ensures group.pgid > 1 && !empty ==> Held(w.at, old(w.now), w.now, group.pgid)
      ensures AliveThroughout(w, old(w.now), w.now, group) ==> !empty && known
    {
      ghost var before := w.now;
      empty, members, known := GroupProvenEmpty(w, group.pgid);
      trail := trail + [Probed(empty)];
      if empty {
        ghost var t: nat :| before <= t <= w.now && NoLiveHolder(w.at(t), group.pgid);
        NoHolderGone(w.at, base, t, w.now, group);
        decidedAt := w.now;
      }
      AliveIsFound(w, before, group);
    }

    lemma AliveIsFound(w: World, from: nat, g: Group)
      requires w.Valid() && from <= w.now
      ensures AliveThroughout(w, from, w.now, g) ==> forall t: nat | from <= t <= w.now :: !NoLiveHolder(w.at(t), g.pgid)
    {
      if AliveThroughout(w, from, w.now, g) {
        var i: nat :| MemberStays(w.at, from, w.now, i, g.pgid);
        forall t: nat | from <= t <= w.now
          ensures !NoLiveHolder(w.at(t), g.pgid)
        {
          MemberIsThere(w.at, from, t, w.now, i, g.pgid);
        }
      }
    }

    // One poll while the group is awaited.
    method Poll(w: World, ghost base: nat) returns (empty: bool)
      requires w.Valid() && base <= w.now && Valid(w, base, w.now) && !emptied && outcome.Undecided?
      modifies w`now, this`trail, this`decidedAt, this`emptied
      ensures w.Valid() && old(w.now) <= w.now && Valid(w, base, w.now) && emptied == empty
      ensures trail == old(trail) + [Probed(empty)]
    {
      var members, known;
      empty, members, known := ProveEmpty(w, base);
      emptied := empty;
    }

    // Reads the recorded leader's procfs entry.
    method LeaderIdentity(w: World, ghost base: nat) returns (why: Reason)
      requires w.Valid() && base <= w.now && group.leaderStart != 0
      modifies w`now
      ensures w.Valid() && old(w.now) <= w.now
      ensures why.NoReason? ==> exists i: nat :: Holds(w.at(w.now), i, group.pgid) && Led(w.at(w.now), i, group)
      ensures why.PgidReused? ==> Gone(w.at, base, w.now, group)
      ensures why in {NoReason, LeaderGone, LeaderStartUnknown, EnumerationFailed, PgidReused, LeaderLeftGroup}
      ensures AliveThroughout(w, old(w.now), w.now, group) ==> why.NoReason?
    {
      ghost var before := w.now;
      var s := w.ProcStat(group.pgid);
      LeaderHolds(w, before, w.now, w.now);
      why := LeaderReason(s, group);
      if s.Info? {
        ghost var i: nat :| Holds(w.at(w.now), i, group.pgid) && Describes(s.info, w.at(w.now).procs[i]);
        if why.PgidReused? {
          ReusedGone(w.at, base, w.now, w.now, group, i);
        } else if why.NoReason? {
          HolderLeads(w.at, w.now, i, group);
        }
      }
    }

    // A leader that stays is the only holder of its pid, and as recorded.
    lemma LeaderHolds(w: World, from: nat, t: nat, to: nat)
      requires w.Valid() && from <= t <= to
      ensures AliveThroughout(w, from, to, group) ==> exists leader: nat ::
        Holds(w.at(t), leader, group.pgid) && Led(w.at(t), leader, group) && leader < |w.at(to).procs|
        && w.at(to).procs[leader].Unreaped() && w.at(t).procs[leader].pgid == group.pgid
        && forall j: nat | Holds(w.at(t), j, group.pgid) :: j == leader
    {
      if AliveThroughout(w, from, to, group) {
        var leader: nat, i: nat :|
          LeaderKept(w.at, from, to, leader, group) && MemberStays(w.at, from, to, i, group.pgid);
        LeaderKeptWithin(w.at, from, t, t, to, leader, group);
        BehaviourEvolves(w.at, 0, t);
        assert Holds(w.at(t), leader, group.pgid) && Led(w.at(t), leader, group);
      }
    }

    // Without a proven leader a group may still turn out to be empty.
    method FinishUnproven(w: World, ghost base: nat, why: Reason)
      requires w.Valid() && base <= w.now && group.pgid > 1
      requires !Closed() && Quiet() && !emptied
      requires why.PgidReused? ==> Gone(w.at, base, w.now, group)
      requires why !in {Reason.LeaderProven, NoReason}
      modifies w`now, this
      ensures w.Valid() && old(w.now) <= w.now
      ensures Valid(w, base, w.now) && Finished() && !outcome.LiveOutcome? && pins == [] && !emptied
      ensures proven == old(proven)
      ensures !outcome.Empty? ==> Held(w.at, old(w.now), w.now, group.pgid)
    {
      Release();
      if why.PgidReused? {
        pids, liveMembers := [], 0;
        trail, decidedAt := trail + [Resolved], w.now;
        Finish(Empty, why);
        return;
      }
      Reprobe(w, base, why);
    }

    method Reprobe(w: World, ghost base: nat, why: Reason)
      requires w.Valid() && base <= w.now && group.pgid > 1
      requires !Closed() && Quiet() && !emptied && leader.None? && pins == []
      modifies w`now, this
      ensures w.Valid() && old(w.now) <= w.now
      ensures Valid(w, base, w.now) && Finished() && !outcome.LiveOutcome? && leader.None? && pins == [] && !emptied
      ensures proven == old(proven)
      ensures !outcome.Empty? ==> Held(w.at, old(w.now), w.now, group.pgid)
    {
      hide Gone, Held, MemberOf, Led, Holds, AliveThroughout;
      var empty, members, known := ProveEmpty(w, base);
      if empty {
        pids, liveMembers := [], 0;
        Finish(Empty, NoMembers);
      } else if !known {
        Finish(Unknown, EnumerationFailed);
      } else {
        pids, liveMembers := members, |members|;
        Finish(Unknown, why);
      }
    }

    // Applies the identity rules. True means the group is proven ours with its
    // members pinned; otherwise the verdict is final.
    method Classify(w: World, ghost base: nat, mode: Mode) returns (ours: bool)
      requires w.Valid() && base <= w.now && Fresh()
      modifies w`now, this
      ensures w.Valid() && old(w.now) <= w.now && Valid(w, base, w.now) && !emptied
      ensures ours == proven
      ensures ours ==> outcome.Undecided? && leader.Some? && group.leaderStart != 0 && group.pgid > 1
      ensures !ours ==> Finished() && pins == []
      ensures mode.AssessOnly? ==> !ours
      ensures group.pgid <= 1 ==> outcome.Unknown?
      ensures group.pgid > 1 && !Held(w.at, old(w.now), w.now, group.pgid) ==> outcome.Empty?
      ensures AliveThroughout(w, old(w.now), w.now, group) ==>
        if mode.AssessOnly? then outcome.LiveOutcome? else ours && Complete(w, old(w.now), w.now)
      ensures ours ==> first == pins && trail == [Probed(false)]
    {
      hide AliveThroughout, Complete, Gone, Held, Fair, MemberOf, Led;
      ghost var start := w.now;
      if group.pgid <= 1 {
        AliveIsFair(w, start, start, group);
        Finish(Unknown, if group.pgid == 0 then LaunchPending else InvalidPgid);
        return false;
      }
      var empty, members, known := ProveEmpty(w, base);
      if empty {
        Finish(Empty, NoMembers);
        return false;
      } else if !known {
        Finish(Unknown, EnumerationFailed);
        return false;
      }
      ghost var probed := w.now;
      pids, liveMembers := members, |members|;
      ours := Identify(w, base, mode);
      HeldWithin(w.at, start, start, probed, w.now, group.pgid);
      AliveWithin(w, start, probed, w.now, w.now, group);
      if ours { CompleteWithin(w, start, probed, w.now, w.now); }
    }

    // The identity rules for a group that has members.
    method Identify(w: World, ghost base: nat, mode: Mode) returns (ours: bool)
      requires w.Valid() && base <= w.now && group.pgid > 1
      requires !Closed() && Quiet() && !emptied && !proven && outcome.Undecided? && leader.None? && pins == []
      modifies w`now, this
      ensures w.Valid() && old(w.now) <= w.now && Valid(w, base, w.now) && !emptied
      ensures ours == proven
      ensures ours ==> outcome.Undecided? && leader.Some? && group.leaderStart != 0
      ensures !ours ==> Finished() && pins == []
      ensures mode.AssessOnly? ==> !ours
      ensures AliveThroughout(w, old(w.now), w.now, group) ==>
        if mode.AssessOnly? then outcome.LiveOutcome? else ours
      ensures ours ==> first == pins && trail == old(trail) && Complete(w, old(w.now), w.now)
    {
      hide AliveThroughout, Complete, Gone, Held, Fair, MemberOf, Led;
      ghost var start := w.now;
      AliveIsFair(w, start, start, group);
      if group.leaderStart == 0 {
        Finish(Unknown, LeaderStartUnknown);
        return false;
      }
      var why := LeaderIdentity(w, base);
      ghost var read := w.now;
      if !why.NoReason? {
        FinishUnproven(w, base, why);
        AliveWithin(w, start, start, read, w.now, group);
        return false;
      }
      AliveIsFair(w, start, read, group);
      if group.pgid == w.selfGroup {
        Finish(Unknown, OwnGroup);
        return false;
      }
      if mode.AssessOnly? {
        Finish(LiveOutcome, Reason.LeaderProven);
        return false;
      }
      ours := PinGroup(w, base);
      AliveWithin(w, start, read, w.now, w.now, group);
      if ours { CompleteWithin(w, start, read, w.now, w.now); }
    }

    lemma CompleteWithin(w: World, from: nat, a: nat, b: nat, to: nat)
      requires w.Valid() && from <= a <= b <= to && Complete(w, a, b)
      ensures Complete(w, from, to)
    {
      if Fair(w, from, to) {
        forall i: nat | MemberStays(w.at, from, to, i, group.pgid) && w.at(from).procs[i].pid != w.selfPid
          ensures Pinned(pins, i)
        {
          MemberStaysWithin(w.at, from, a, b, to, i, group.pgid);
          StaysBetween(w.at, from, a, to, i, group.pgid);
        }
      }
    }

    // The leader that was opened is the one that stays.
    lemma OpenedStays(w: World, from: nat, to: nat)
      requires w.Valid() && leader.Some? && from <= to && provenAt <= to && Led(w.at(provenAt), leader.value, group)
      ensures AliveThroughout(w, from, to, group) ==> leader.value < |w.at(to).procs| && w.at(to).procs[leader.value].Unreaped()
    {
      var t := if provenAt <= from then from else provenAt;
      LeaderHolds(w, from, t, to);
      BehaviourEvolves(w.at, provenAt, t);
    }

    // Opens the leader's pidfd, re-reads its identity and checks the pidfd, so
    // the read describes the process the pidfd names.
    method OpenLeader(w: World, ghost base: nat) returns (why: Reason)
      requires w.Valid() && base <= w.now && group.leaderStart != 0
      modifies w`now, this`leader, this`provenAt
      ensures w.Valid() && old(w.now) <= w.now && LeaderProven(w, w.now)
      ensures why.NoReason? <==> leader.Some?
      ensures leader.Some? ==> old(w.now) <= provenAt
      ensures why.PgidReused? ==> Gone(w.at, base, w.now, group)
      ensures !why.LeaderProven?
      ensures AliveThroughout(w, old(w.now), w.now, group) ==> why.NoReason?
    {
      leader := None;
      ghost var before := w.now;
      var got := w.PidfdOpen(group.pgid);
      ghost var openedAt := w.now;
      LeaderHolds(w, before, openedAt, openedAt);
      if got.NoProcess? { return LeaderGone; }
      if got.OpenDenied? { return SignalUnavailable; }
      why := LeaderIdentity(w, base);
      ghost var readAt := w.now;
      AliveWithin(w, before, openedAt, readAt, readAt, group);
      if !why.NoReason? { return; }
      ghost var holder: nat :| Holds(w.at(readAt), holder, group.pgid) && Led(w.at(readAt), holder, group);
      var alive := w.PidfdAlive(got.fd);
      LeaderHolds(w, before, openedAt, w.now);
      if !alive { return LeaderGone; }
      ReadDescribesPidfd(w.at, openedAt, readAt, w.now, got.fd, holder, group.pgid);
      leader, provenAt := Some(got.fd), readAt;
    }

    // The bracketed proof: with the leader open and checked, walk and pin the
    // members, and check the leader's pidfd again.
    method PinGroup(w: World, ghost base: nat) returns (ours: bool)
      requires w.Valid() && base <= w.now && group.pgid > 1 && group.leaderStart != 0
      requires !Closed() && Quiet() && !emptied && !proven && outcome.Undecided? && leader.None? && pins == []
      modifies w`now, this
      ensures w.Valid() && old(w.now) <= w.now && Valid(w, base, w.now) && !emptied
      ensures ours == proven
      ensures ours ==> outcome.Undecided? && leader.Some? && first == pins && trail == old(trail)
      ensures !ours ==> Finished() && pins == []
      ensures AliveThroughout(w, old(w.now), w.now, group) ==> ours
      ensures ours ==> Complete(w, old(w.now), w.now)
    {
      ghost var start := w.now;
      var why := OpenLeader(w, base);
      ghost var ready := w.now;
      if why.SignalUnavailable? {
        Finish(Unknown, SignalUnavailable);
        return false;
      } else if !why.NoReason? {
        FinishUnproven(w, base, why);
        AliveWithin(w, start, start, ready, w.now, group);
        return false;
      }
      ours := PinChecked(w, base);
      AliveWithin(w, start, ready, w.now, w.now, group);
      if ours { CompleteWithin(w, start, ready, w.now, w.now); }
    }

    // With the leader open: the walk between two checks of it.
    method PinChecked(w: World, ghost base: nat) returns (ours: bool)
      requires w.Valid() && base <= w.now && group.pgid > 1 && group.leaderStart != 0
      requires !Closed() && Quiet() && !emptied && !proven && outcome.Undecided? && pins == []
      requires leader.Some? && LeaderProven(w, w.now)
      modifies w`now, this
      ensures w.Valid() && old(w.now) <= w.now && Valid(w, base, w.now) && !emptied
      ensures ours == proven
      ensures ours ==> outcome.Undecided? && leader.Some? && first == pins && trail == old(trail)
      ensures !ours ==> Finished() && pins == []
      ensures AliveThroughout(w, old(w.now), w.now, group) ==> ours
      ensures ours ==> Complete(w, old(w.now), w.now)
    {
      hide AliveThroughout, Complete, Gone, MemberOf, Held, Fair, Pins, MemberStays, Excluded;
      ghost var ready := w.now;
      var found, ok := PinMembers(w, group.pgid, []);
      ghost var scanned := w.now;
      if !ok {
        AliveIsFair(w, ready, w.now, group);
        Finish(Unknown, EnumerationFailed);
        return false;
      }
      var alive := w.PidfdAlive(leader.value);
      ghost var checked := w.now;
      if !alive {
        OpenedStays(w, ready, checked);
        AliveIsFair(w, ready, checked, group);
        FinishUnproven(w, base, LeaderGone);
        AliveWithin(w, ready, ready, checked, w.now, group);
        return false;
      }
      ScanProven(w, found);
      Claim(w, base, found, ready, scanned);
      ours := true;
    }

    method Claim(w: World, ghost base: nat, found: seq<Pin>, ghost from: nat, ghost to: nat)
      requires w.Valid() && base <= from <= to <= w.now
      requires !Closed() && Quiet() && !emptied && !proven && outcome.Undecided? && pins == []
      requires leader.Some? && LeaderProven(w, w.now)
      requires Pins(w, from, to, found, group.pgid) && forall p | p in found :: MemberOf(w.at(p.at), p.fd, group)
      requires Fair(w, from, to) ==>
        forall i: nat | MemberStays(w.at, from, to, i, group.pgid) && !Excluded(w, [], w.at(from).procs[i].pid) ::
          Pinned(found, i)
      modifies this`pins, this`proven, this`reason, this`pids, this`liveMembers, this`first
      ensures Valid(w, base, w.now) && proven && first == pins == found && Complete(w, from, w.now)
    {
      hide MemberOf, Led, Holds, InGroup;
      pins, proven, reason, pids, liveMembers := found, true, Reason.LeaderProven, [], 0;
      first := found;
      AllComplete(w, from, to);
      CompleteWithin(w, from, from, to, w.now);
    }

    lemma AllComplete(w: World, from: nat, to: nat)
      requires Fair(w, from, to) ==>
        forall i: nat | MemberStays(w.at, from, to, i, group.pgid) && !Excluded(w, [], w.at(from).procs[i].pid) ::
          Pinned(pins, i)
      ensures Complete(w, from, to)
    {
    }

    lemma ScanProven(w: World, found: seq<Pin>)
      requires w.Valid() && leader.Some? && LeaderProven(w, w.now)
      requires leader.value < |w.at(w.now).procs| && w.at(w.now).procs[leader.value].Unreaped()
      requires Pins(w, provenAt, w.now, found, group.pgid)
      ensures forall p | p in found :: MemberOf(w.at(p.at), p.fd, group)
    {
      forall p | p in found
        ensures MemberOf(w.at(p.at), p.fd, group)
      {
        BracketedScan(w.at, provenAt, p.at, w.now, leader.value, p.fd, group);
      }
    }

    // Drops the pins whose process is gone and, while the leader is still
    // proven, pins the members forked since the first walk.
    method Repin(w: World, ghost base: nat)
      requires w.Valid() && base <= w.now && Valid(w, base, w.now) && !emptied
      requires leader.Some? && group.leaderStart != 0
      modifies w`now, this`pins
      ensures w.Valid() && old(w.now) <= w.now && Valid(w, base, w.now)
      ensures AliveThroughout(w, old(w.now), w.now, group) ==> Complete(w, old(w.now), w.now)
    {
      hide AliveThroughout, Complete, Fair, MemberOf, Gone, Led, MemberStays, Holds;
      ghost var start := w.now;
      pins := StillThere(w, base);
      PinForked(w, base, start);
    }

    method PinForked(w: World, ghost base: nat, ghost start: nat)
      requires w.Valid() && base <= start <= w.now && Valid(w, base, w.now) && !emptied
      requires leader.Some? && group.leaderStart != 0
      requires forall p | p in pins ::
        p.fd < |w.at(start).procs| && w.at(start).procs[p.fd].Unreaped() && w.at(start).procs[p.fd].pid == p.pid
      modifies w`now, this`pins
      ensures w.Valid() && old(w.now) <= w.now && Valid(w, base, w.now)
      ensures AliveThroughout(w, start, w.now, group) ==> Complete(w, start, w.now)
    {
      hide AliveThroughout, Complete, Fair, MemberOf, Gone, Led, MemberStays, Excluded, Holds;
      var up := w.PidfdAlive(leader.value);
      ghost var checked := w.now;
      OpenedStays(w, start, checked);
      AliveIsFair(w, start, checked, group);
      if !up { return; }
      var why := LeaderIdentity(w, base);
      ghost var read := w.now;
      AliveWithin(w, start, checked, read, read, group);
      if !why.NoReason? { return; }
      var added, ok := PinMembers(w, group.pgid, pins);
      ghost var scanned := w.now;
      AliveWithin(w, start, read, scanned, scanned, group);
      AliveIsFair(w, read, scanned, group);
      if !ok { return; }
      up := w.PidfdAlive(leader.value);
      OpenedStays(w, start, w.now);
      AliveIsFair(w, start, w.now, group);
      if !up { return; }
      ScanProven(w, added);
      RepinnedAll(w, start, read, scanned, w.now, pins, added);
      pins := pins + added;
      IsComplete(w, start, w.now);
    }

    lemma IsComplete(w: World, from: nat, to: nat)
      requires Fair(w, from, to) ==>
        forall i: nat | MemberStays(w.at, from, to, i, group.pgid) && w.at(from).procs[i].pid != w.selfPid :: Pinned(pins, i)
      ensures Complete(w, from, to)
    {
    }

    // The pins whose process is still unreaped.
    method StillThere(w: World, ghost base: nat) returns (alive: seq<Pin>)
      requires w.Valid() && base <= w.now && PinsProven(w, base, w.now)
      modifies w`now
      ensures w.Valid() && old(w.now) <= w.now
      ensures forall p | p in alive ::
        p in pins && p.fd < |w.at(old(w.now)).procs| && w.at(old(w.now)).procs[p.fd].Unreaped()
        && w.at(old(w.now)).procs[p.fd].pid == p.pid
    {
      alive := [];
      ghost var start := w.now;
      for k := 0 to |pins|
        invariant w.Valid() && start <= w.now
        invariant forall p | p in alive ::
          p in pins && p.fd < |w.at(start).procs| && w.at(start).procs[p.fd].Unreaped()
          && w.at(start).procs[p.fd].pid == p.pid
      {
        assert pins[k] in pins;
        var ok := w.PidfdAlive(pins[k].fd);
        if ok {
          BehaviourEvolves(w.at, pins[k].at, start);
          BehaviourEvolves(w.at, start, w.now);
          alive := alive + [pins[k]];
        }
      }
    }

    // A member left out of the second walk was pinned already.
    lemma RepinnedAll(w: World, start: nat, read: nat, scanned: nat, now: nat, kept: seq<Pin>, added: seq<Pin>)
      requires w.Valid() && start <= read <= scanned <= now
      requires forall p | p in kept ::
        p.fd < |w.at(start).procs| && w.at(start).procs[p.fd].Unreaped() && w.at(start).procs[p.fd].pid == p.pid
      requires Fair(w, read, scanned) ==>
        forall i: nat | MemberStays(w.at, read, scanned, i, group.pgid) && !Excluded(w, kept, w.at(read).procs[i].pid) ::
          Pinned(added, i)
      ensures Fair(w, start, now) ==>
        forall i: nat | MemberStays(w.at, start, now, i, group.pgid) && w.at(start).procs[i].pid != w.selfPid ::
          Pinned(kept + added, i)
    {
      if Fair(w, start, now) {
        forall i: nat | MemberStays(w.at, start, now, i, group.pgid) && w.at(start).procs[i].pid != w.selfPid
          ensures Pinned(kept + added, i)
        {
          MemberStaysWithin(w.at, start, read, scanned, now, i, group.pgid);
          StaysBetween(w.at, start, read, now, i, group.pgid);
          StaysBetween(w.at, start, start, now, i, group.pgid);
          BehaviourEvolves(w.at, 0, start);
          if Excluded(w, kept, w.at(read).procs[i].pid) {
            var q :| q in kept && q.pid == w.at(read).procs[i].pid;
            assert q.fd == i && q in kept + added;
          } else {
            var p :| p in added && p.fd == i;
            assert p in kept + added;
          }
        }
      }
    }

    // Sends sig to every pinned member.
    method SignalPins(w: World, ghost base: nat, sig: Signal)
      requires w.Valid() && base <= w.now && Valid(w, base, w.now) && !Closed()
      modifies w`now, w`delivered, w`attempted, this`signals, this`pids, this`trail
      ensures w.Valid() && old(w.now) <= w.now && Valid(w, base, w.now) && !Closed()
      ensures trail == old(trail) + [Signalled(sig)]
      ensures old(w.delivered) <= w.delivered && Aimed(w.delivered[|old(w.delivered)|..], pins, sig)
      ensures signals == if w.delivered != old(w.delivered) then old(signals) + [sig] else old(signals)
      ensures old(w.attempted) <= w.attempted && Only(w.attempted[|old(w.attempted)|..], sig)
      ensures Tried(w.attempted[|old(w.attempted)|..], pins, sig)
      ensures Fair(w, old(w.now), w.now) ==> Got(w, w.now, w.delivered[|old(w.delivered)|..], pins, sig)
    {
      ghost var start, sent, tried := w.now, w.delivered, w.attempted;
      var any := false;
      for k := 0 to |pins|
        invariant w.Valid() && start <= w.now && sent <= w.delivered && tried <= w.attempted
        invariant Aimed(w.delivered[|sent|..], pins, sig) && Only(w.attempted[|tried|..], sig)
        invariant trail == old(trail) && signals == old(signals)
        invariant any <==> w.delivered != sent
        invariant Tried(w.attempted[|tried|..], pins[..k], sig)
        invariant Fair(w, start, w.now) ==> Got(w, w.now, w.delivered[|sent|..], pins[..k], sig)
      {
        any := SendOne(w, base, sig, k, any, start, sent, tried);
      }
      assert pins[..|pins|] == pins;
      if any { signals := signals + [sig]; }
      trail := trail + [Signalled(sig)];
    }

    method SendOne(w: World, ghost base: nat, sig: Signal, k: nat, any: bool, ghost start: nat, ghost sent: seq<Delivery>,
                   ghost tried: seq<Delivery>) returns (any': bool)
      requires w.Valid() && k < |pins| && base <= start <= w.now && PinsProven(w, base, start)
      requires sent <= w.delivered && tried <= w.attempted
      requires Aimed(w.delivered[|sent|..], pins, sig) && Only(w.attempted[|tried|..], sig)
      requires Tried(w.attempted[|tried|..], pins[..k], sig)
      requires Fair(w, start, w.now) ==> Got(w, w.now, w.delivered[|sent|..], pins[..k], sig)
      requires any <==> w.delivered != sent
      modifies w`now, w`delivered, w`attempted, this`pids
      ensures w.Valid() && old(w.now) <= w.now && sent <= w.delivered && tried <= w.attempted
      ensures Aimed(w.delivered[|sent|..], pins, sig) && Only(w.attempted[|tried|..], sig)
      ensures Tried(w.attempted[|tried|..], pins[..k + 1], sig)
      ensures Fair(w, start, w.now) ==> Got(w, w.now, w.delivered[|sent|..], pins[..k + 1], sig)
      ensures any' <==> w.delivered != sent
    {
      hide Tried, Got, Fair, MemberOf, Holds, Behaviour, Aimed, Only;
      var p := pins[k];
      assert p in pins && pins[..k + 1] == pins[..k] + [p];
      ghost var before, got, attempts := w.now, w.delivered[|sent|..], w.attempted[|tried|..];
      var ok := w.PidfdSend(p.fd, sig);
      assert w.attempted[|tried|..] == attempts + [Delivery(p.fd, sig)];
      assert w.delivered[|sent|..] == if ok then got + [Delivery(p.fd, sig)] else got;
      OneMoreTried(attempts, pins[..k], p, sig);
      OneMoreAimed(got, pins, p, sig);
      SentLater(w, base, start, before, w.now, got, w.delivered[|sent|..], pins[..k], sig);
      OneMoreGot(w, start, w.now, w.delivered[|sent|..], pins[..k], p, sig);
      any' := any || ok;
      if ok && p.pid !in pids { pids := pids + [p.pid]; }
    }

    lemma OneMoreAimed(ds: seq<Delivery>, ps: seq<Pin>, p: Pin, sig: Signal)
      requires Aimed(ds, ps, sig) && p in ps
      ensures Aimed(ds + [Delivery(p.fd, sig)], ps, sig)
    {
    }

    lemma OneMoreTried(attempts: seq<Delivery>, ps: seq<Pin>, p: Pin, sig: Signal)
      requires Tried(attempts, ps, sig) && Only(attempts, sig)
      ensures Tried(attempts + [Delivery(p.fd, sig)], ps + [p], sig) && Only(attempts + [Delivery(p.fd, sig)], sig)
    {
    }

    lemma OneMoreGot(w: World, from: nat, to: nat, deliveries: seq<Delivery>, ps: seq<Pin>, p: Pin, sig: Signal)
      requires from <= to && (Fair(w, from, to) ==> Got(w, to, deliveries, ps, sig))
      requires !w.denies(to) && p.fd < |w.at(to).procs| && w.at(to).procs[p.fd].Unreaped() ==>
        Delivery(p.fd, sig) in deliveries
      ensures Fair(w, from, to) ==> Got(w, to, deliveries, ps + [p], sig)
    {
    }

    lemma SentLater(w: World, base: nat, start: nat, before: nat, now: nat, earlier: seq<Delivery>, later: seq<Delivery>,
                    ps: seq<Pin>, sig: Signal)
      requires w.Valid() && base <= start <= before <= now && earlier <= later
      requires forall p | p in ps :: base <= p.at <= start && Holds(w.at(p.at), p.fd, p.pid)
      requires Fair(w, start, before) ==> Got(w, before, earlier, ps, sig)
      ensures Fair(w, start, now) ==> Got(w, now, later, ps, sig)
    {
      if Fair(w, start, now) {
        forall p | p in ps && p.fd < |w.at(now).procs| && w.at(now).procs[p.fd].Unreaped()
          ensures Delivery(p.fd, sig) in later
        {
          BehaviourEvolves(w.at, p.at, before);
          BehaviourEvolves(w.at, before, now);
          assert Delivery(p.fd, sig) in earlier;
        }
      }
    }

    // Decides the outcome of a proven group after signalling.
    method Conclude(w: World, ghost base: nat)
      requires w.Valid() && base <= w.now && Valid(w, base, w.now) && outcome.Undecided?
      modifies w`now, this
      ensures w.Valid() && old(w.now) <= w.now && Valid(w, base, w.now) && Finished()
      ensures old(emptied) ==> trail == old(trail) && emptied
      ensures !old(emptied) ==> trail == old(trail) + [Probed(emptied)]
      ensures pins == old(pins) && first == old(first) && signals == old(signals) && proven == old(proven)
      // Terminated is what was signalled and is gone, empty what was gone without it.
      ensures outcome == if !emptied then Unknown else if signals != [] then Terminated else Empty
      ensures group.pgid > 1 && !emptied ==> Held(w.at, old(w.now), w.now, group.pgid)
    {
      hide Held, Gone, MemberOf, Led, AliveThroughout, Holds;
      var members: seq<int>, known := [], true;
      if !emptied {
        emptied, members, known := ProveEmpty(w, base);
      }
      Settle(w, base, members, known);
    }

    method Settle(w: World, ghost base: nat, members: seq<int>, known: bool)
      requires Quiet() && PinsProven(w, base, w.now) && LeaderProven(w, w.now)
      requires emptied ==> Closed() && group.pgid > 1 && base <= decidedAt <= w.now && Gone(w.at, base, decidedAt, group)
      modifies this`pids, this`liveMembers, this`outcome, this`reason, this`state
      ensures Valid(w, base, w.now) && outcome == if !emptied then Unknown else if signals != [] then Terminated else Empty
    {
      hide Gone, MemberOf, Led, Holds;
      if emptied {
        liveMembers := 0;
        if |signals| > 0 {
          Finish(Terminated, reason);
        } else {
          Finish(Empty, NoMembers);
        }
        return;
      }
      pids, liveMembers := members, |members|;
      if !known {
        Finish(Unknown, EnumerationFailed);
      } else if forall pid | pid in members :: exists p | p in pins :: p.pid == pid {
        Finish(Unknown, SurvivedSigkill);
      } else {
        Finish(Unknown, UnprovenMembers);
      }
    }
  }

  // ── the whole record ────────────────────────────────────────────────────────

  // The target was a member of a recorded group at an instant within [from, to].
  ghost predicate Authorised(at: History, from: nat, to: nat, groups: seq<Group>, target: nat)
  {
    exists g, t: nat :: g in groups && from <= t <= to && MemberOf(at(t), target, g)
  }

  // What a verdict of empty or terminated means for one recorded group.
  ghost predicate Cleared(at: History, base: nat, t: nat, recorded: Host, g: Group)
  {
    || (recorded.bootID != "" && recorded.bootID != at(t).boot)
    || (g.pgid > 1 && Gone(at, base, t, g))
  }

  // Probing adds no signal.
  ghost predicate SameSignals(before: seq<Touch>, after: seq<Touch>)
  {
    forall sig: Signal :: Signalled(sig) in after <==> Signalled(sig) in before
  }

  // What `rounds` of probing make of a group: one found empty is left alone, one that
  // never is was probed in each round.
  ghost predicate Polled(emptied: bool, before: seq<Touch>, emptied': bool, after: seq<Touch>, rounds: nat)
  {
    && (emptied ==> emptied' && after == before) && SameSignals(before, after)
    && (!emptied' ==> |after| == |before| + rounds)
  }

  lemma PolledOnce(before: seq<Touch>, empty: bool)
    ensures Polled(false, before, empty, before + [Probed(empty)], 1)
  {
  }

  lemma NotPolled(emptied: bool, trail: seq<Touch>)
    ensures Polled(emptied, trail, emptied, trail, 0) && (emptied ==> Polled(true, trail, true, trail, 1))
  {
  }

  lemma PolledMore(a: bool, s: seq<Touch>, b: bool, t: seq<Touch>, c: bool, u: seq<Touch>, m: nat, n: nat)
    requires Polled(a, s, b, t, m) && Polled(b, t, c, u, n)
    ensures Polled(a, s, c, u, m + n)
  {
  }

  // Probes once each group not yet found empty; true when one is left.
  method PollRound(w: World, rs: seq<Recovery>, ghost base: nat) returns (pending: bool)
    requires w.Valid() && base <= w.now && AllSorted(rs, w, base, w.now)
    modifies w`now, (set r | r in rs)`trail, (set r | r in rs)`decidedAt, (set r | r in rs)`emptied
    ensures w.Valid() && old(w.now) <= w.now && AllSorted(rs, w, base, w.now)
    ensures forall i | 0 <= i < |rs| && rs[i].proven ::
      Polled(old(rs[i].emptied), old(rs[i].trail), rs[i].emptied, rs[i].trail, 1)
    ensures forall i | 0 <= i < |rs| && !rs[i].proven :: rs[i].trail == old(rs[i].trail)
    ensures pending <==> exists i :: 0 <= i < |rs| && rs[i].proven && !rs[i].emptied
  {
    hide Polled, Sorted;
    pending := false;
    for i := 0 to |rs|
      invariant w.Valid() && old(w.now) <= w.now && AllSorted(rs, w, base, w.now)
      invariant forall j | i <= j < |rs| :: rs[j].emptied == old(rs[j].emptied) && rs[j].trail == old(rs[j].trail)
      invariant forall j | 0 <= j < i && rs[j].proven ::
        Polled(old(rs[j].emptied), old(rs[j].trail), rs[j].emptied, rs[j].trail, 1)
      invariant forall j | 0 <= j < i && !rs[j].proven :: rs[j].trail == old(rs[j].trail)
      invariant pending <==> exists j :: 0 <= j < i && rs[j].proven && !rs[j].emptied
    {
      NotPolled(rs[i].emptied, rs[i].trail);
      if rs[i].proven && !rs[i].emptied {
        var empty := PollOne(w, rs[i], rs, base);
        PolledOnce(old(rs[i].trail), empty);
        if !empty { pending := true; }
      }
    }
  }

  method Wait(w: World, rs: seq<Recovery>, ghost base: nat)
    requires w.Valid() && base <= w.now && AllSorted(rs, w, base, w.now)
    modifies w`now
    ensures w.Valid() && old(w.now) <= w.now && AllSorted(rs, w, base, w.now)
  {
    w.Advance();
  }

  method PollOne(w: World, r: Recovery, rs: seq<Recovery>, ghost base: nat) returns (empty: bool)
    requires w.Valid() && base <= w.now && AllSorted(rs, w, base, w.now) && r in rs && r.proven && !r.emptied
    modifies w`now, r`trail, r`decidedAt, r`emptied
    ensures w.Valid() && old(w.now) <= w.now && AllSorted(rs, w, base, w.now)
    ensures r.emptied == empty && r.trail == old(r.trail) + [Probed(empty)]
  {
    empty := r.Poll(w, base);
  }

  // Looks at every group again until none is left to wait for, or `polls` more times.
  method AwaitEmpty(w: World, rs: seq<Recovery>, ghost base: nat, polls: nat) returns (ghost rounds: nat)
    requires w.Valid() && base <= w.now && AllSorted(rs, w, base, w.now)
    modifies w`now, (set r | r in rs)`trail, (set r | r in rs)`decidedAt, (set r | r in rs)`emptied
    ensures w.Valid() && old(w.now) <= w.now && AllSorted(rs, w, base, w.now)
    ensures forall i | 0 <= i < |rs| && !rs[i].proven :: rs[i].trail == old(rs[i].trail)
    ensures forall i | 0 <= i < |rs| && rs[i].proven ::
      Polled(old(rs[i].emptied), old(rs[i].trail), rs[i].emptied, rs[i].trail, rounds)
    ensures rounds == polls + 1 || (1 <= rounds <= polls && forall i | 0 <= i < |rs| && rs[i].proven :: rs[i].emptied)
  {
    hide Polled, AllSorted;
    var left := polls;
    rounds := 0;
    forall i | 0 <= i < |rs| && rs[i].proven
      ensures Polled(rs[i].emptied, rs[i].trail, rs[i].emptied, rs[i].trail, 0)
    {
      NotPolled(rs[i].emptied, rs[i].trail);
    }
    while true
      invariant w.Valid() && old(w.now) <= w.now && AllSorted(rs, w, base, w.now) && rounds + left == polls
      invariant forall i | 0 <= i < |rs| && !rs[i].proven :: rs[i].trail == old(rs[i].trail)
      invariant forall i | 0 <= i < |rs| && rs[i].proven ::
        Polled(old(rs[i].emptied), old(rs[i].trail), rs[i].emptied, rs[i].trail, rounds)
      decreases left
    {
      ghost var states := seq(|rs|, i requires 0 <= i < |rs| reads rs => (rs[i].emptied, rs[i].trail));
      var pending := PollRound(w, rs, base);
      forall i | 0 <= i < |rs| && rs[i].proven
        ensures Polled(old(rs[i].emptied), old(rs[i].trail), rs[i].emptied, rs[i].trail, rounds + 1)
      {
        PolledMore(old(rs[i].emptied), old(rs[i].trail), states[i].0, states[i].1, rs[i].emptied, rs[i].trail, rounds, 1);
      }
      rounds := rounds + 1;
      if !pending || left == 0 { return; }
      left := left - 1;
      Wait(w, rs, base);
    }
  }

  // After classification a group is either proven ours and still undecided, or
  // finished.
  ghost predicate Sorted(r: Recovery, w: World, base: nat, now: nat)
    reads r
  {
    && r.Valid(w, base, now)
    && (r.proven ==> r.outcome.Undecided? && r.leader.Some? && r.group.leaderStart != 0)
    && (!r.proven ==> r.Finished() && !r.emptied)
  }

  ghost predicate AllSorted(rs: seq<Recovery>, w: World, base: nat, now: nat)
    reads rs
  {
    Distinct(rs) && forall i | 0 <= i < |rs| :: Sorted(rs[i], w, base, now)
  }

  ghost predicate Distinct(rs: seq<Recovery>)
  {
    forall i, j | 0 <= i < j < |rs| :: rs[i] != rs[j]
  }

  // Every delivery since `from` reached a proven member of a recorded group.
  ghost predicate Faithful(w: World, from: nat, base: nat, groups: seq<Group>)
    reads w
  {
    from <= |w.delivered| && forall k | from <= k < |w.delivered| ::
      Authorised(w.at, base, w.now, groups, w.delivered[k].target)
  }

  method Enlist(groups: seq<Group>) returns (rs: seq<Recovery>)
    ensures |rs| == |groups| && fresh(set r | r in rs)
    ensures Distinct(rs) && forall i | 0 <= i < |rs| :: rs[i].group == groups[i] && rs[i].Fresh()
  {
    rs := [];
    for i := 0 to |groups|
      invariant |rs| == i && fresh(set r | r in rs)
      invariant forall j, k | 0 <= j < k < i :: rs[j] != rs[k]
      invariant forall j | 0 <= j < i :: rs[j].group == groups[j] && rs[j].Fresh()
    {
      var r := new Recovery(groups[i]);
      rs := rs + [r];
    }
  }

  // ── who is signalled ────────────────────────────────────────────────────────

  // Every member that ran throughout got the signal, if its group was alive throughout.
  ghost predicate Reached(w: World, base: nat, to: nat, deliveries: seq<Delivery>, g: Group, sig: Signal)
  {
    AliveThroughout(w, base, to, g) ==>
      forall i: nat | MemberStays(w.at, base, to, i, g.pgid) && w.at(base).procs[i].pid != w.selfPid ::
        Delivery(i, sig) in deliveries
  }

  lemma ReachedStays(w: World, base: nat, a: nat, b: nat, d: seq<Delivery>, d': seq<Delivery>, g: Group, sig: Signal)
    requires w.Valid() && base <= a <= b && Reached(w, base, a, d, g, sig) && forall x | x in d :: x in d'
    ensures Reached(w, base, b, d', g, sig)
  {
    AliveWithin(w, base, base, a, b, g);
    if AliveThroughout(w, base, b, g) {
      forall i: nat | MemberStays(w.at, base, b, i, g.pgid) && w.at(base).procs[i].pid != w.selfPid
        ensures Delivery(i, sig) in d'
      {
        MemberStaysWithin(w.at, base, base, a, b, i, g.pgid);
      }
    }
  }

  // A group found empty was not alive throughout.
  lemma EmptiedReached(w: World, r: Recovery, base: nat, deliveries: seq<Delivery>, sig: Signal)
    requires w.Valid() && base <= w.now && r.Valid(w, base, w.now) && r.emptied
    ensures Reached(w, base, w.now, deliveries, r.group, sig)
  {
    if AliveThroughout(w, base, w.now, r.group) { AliveNotGone(w, base, r.decidedAt, w.now, r.group); }
  }

  lemma AliveNotGone(w: World, base: nat, t: nat, to: nat, g: Group)
    requires w.Valid() && base <= t <= to && AliveThroughout(w, base, to, g)
    ensures !Gone(w.at, base, t, g)
  {
    var leader: nat, i: nat :| LeaderKept(w.at, base, to, leader, g) && MemberStays(w.at, base, to, i, g.pgid);
    StaysBetween(w.at, base, t, to, i, g.pgid);
    StaysBetween(w.at, base, base, to, i, g.pgid);
    BehaviourEvolves(w.at, base, t);
    NumberReachesOneGroup(w.at(base), leader, i);
    assert RecordedAs(w.at(base), g, leader) && LiveIn(w.at(t), leader);
  }

  // Pinned members that got the signal are members reached.
  lemma PinsReached(w: World, r: Recovery, base: nat, before: nat, deliveries: seq<Delivery>, sig: Signal)
    requires w.Valid() && base <= before <= w.now
    requires AliveThroughout(w, base, before, r.group) ==> r.Complete(w, base, before)
    requires Fair(w, before, w.now) ==> Got(w, w.now, deliveries, r.pins, sig)
    ensures Reached(w, base, w.now, deliveries, r.group, sig)
  {
    AliveWithin(w, base, base, before, w.now, r.group);
    if AliveThroughout(w, base, w.now, r.group) {
      forall i: nat | MemberStays(w.at, base, w.now, i, r.group.pgid) && w.at(base).procs[i].pid != w.selfPid
        ensures Delivery(i, sig) in deliveries
      {
        MemberStaysWithin(w.at, base, base, before, w.now, i, r.group.pgid);
        StaysBetween(w.at, base, w.now, w.now, i, r.group.pgid);
        assert Pinned(r.pins, i);
      }
    }
  }

  // The signal was sent to each of the pins, and reached whom it had to.
  ghost predicate Served(w: World, r: Recovery, base: nat, tried: nat, sent: nat, ps: seq<Pin>, sig: Signal)
    reads w, r
  {
    && tried <= |w.attempted| && sent <= |w.delivered| && Signalled(sig) in r.trail
    && Tried(w.attempted[tried..], ps, sig) && Reached(w, base, w.now, w.delivered[sent..], r.group, sig)
  }

  // What was sent before stays sent.
  lemma ServedAgain(w: World, r: Recovery, base: nat, tried: nat, sent: nat, ps: seq<Pin>, sig: Signal, before: nat,
                    attempts: seq<Delivery>, deliveries: seq<Delivery>)
    requires w.Valid() && base <= before <= w.now && tried <= |attempts| && sent <= |deliveries|
    requires attempts <= w.attempted && deliveries <= w.delivered && Signalled(sig) in r.trail
    requires Tried(attempts[tried..], ps, sig) && Reached(w, base, before, deliveries[sent..], r.group, sig)
    ensures Served(w, r, base, tried, sent, ps, sig)
  {
    assert attempts[tried..] <= w.attempted[tried..] && deliveries[sent..] <= w.delivered[sent..];
    ReachedStays(w, base, before, w.now, deliveries[sent..], w.delivered[sent..], r.group, sig);
  }

  method ClassifyAll(w: World, rs: seq<Recovery>, ghost base: nat, mode: Mode)
    requires w.Valid() && base <= w.now && Distinct(rs)
    requires forall i | 0 <= i < |rs| :: rs[i].Fresh()
    modifies w`now, rs
    ensures w.Valid() && old(w.now) <= w.now && AllSorted(rs, w, base, w.now)
    ensures forall i | 0 <= i < |rs| :: Classified(w, rs[i], base, w.now, mode)
  {
    for i := 0 to |rs|
      invariant w.Valid() && old(w.now) <= w.now
      invariant forall j | 0 <= j < i :: Sorted(rs[j], w, base, w.now) && Classified(w, rs[j], base, w.now, mode)
      invariant forall j | i <= j < |rs| :: rs[j].Fresh()
    {
      ghost var before := w.now;
      ClassifyOne(w, rs[i], base, mode);
      forall j | 0 <= j < i
        ensures Sorted(rs[j], w, base, w.now) && Classified(w, rs[j], base, w.now, mode)
      {
        ClassifiedStays(w, rs[j], base, before, w.now, mode);
      }
    }
  }

  // A group that is alive is claimed, with all its members pinned; one nobody holds is
  // empty.
  ghost predicate Classified(w: World, r: Recovery, base: nat, to: nat, mode: Mode)
    reads r
  {
    && !r.emptied && (mode.AssessOnly? ==> !r.proven)
    && (r.proven ==> r.first == r.pins && r.trail == [Probed(false)])
    && (r.group.pgid > 1 && !Held(w.at, base, to, r.group.pgid) ==> r.outcome.Empty?)
    && (AliveThroughout(w, base, to, r.group) ==>
          if mode.AssessOnly? then r.outcome.LiveOutcome? else r.proven && r.Complete(w, base, to))
  }

  lemma ClassifiedStays(w: World, r: Recovery, base: nat, a: nat, b: nat, mode: Mode)
    requires w.Valid() && base <= a <= b && Sorted(r, w, base, a) && Classified(w, r, base, a, mode)
    ensures Sorted(r, w, base, b) && Classified(w, r, base, b, mode)
  {
    hide AliveThroughout, Held, Recovery.Complete, Fair;
    HeldWithin(w.at, base, base, a, b, r.group.pgid);
    AliveWithin(w, base, base, a, b, r.group);
    if r.Complete(w, base, a) { r.CompleteWithin(w, base, base, a, b); }
  }

  method ClassifyOne(w: World, r: Recovery, ghost base: nat, mode: Mode)
    requires w.Valid() && base <= w.now && r.Fresh()
    modifies w`now, r
    ensures w.Valid() && old(w.now) <= w.now && Sorted(r, w, base, w.now) && Classified(w, r, base, w.now, mode)
  {
    hide AliveThroughout, Held, Recovery.Complete, Fair;
    ghost var before := w.now;
    var ours := r.Classify(w, base, mode);
    HeldWithin(w.at, base, before, w.now, w.now, r.group.pgid);
    AliveWithin(w, base, before, w.now, w.now, r.group);
    if r.Complete(w, before, w.now) { r.CompleteWithin(w, base, before, w.now, w.now); }
  }

  lemma PinnedIsAuthorised(w: World, r: Recovery, base: nat, groups: seq<Group>, target: nat)
    requires r.PinsProven(w, base, w.now) && r.group in groups && Pinned(r.pins, target)
    ensures Authorised(w.at, base, w.now, groups, target)
  {
    var p :| p in r.pins && p.fd == target;
    assert MemberOf(w.at(p.at), p.fd, r.group);
  }

  // Signals one proven group and keeps the ledger of deliveries faithful.
  method SignalOne(w: World, r: Recovery, sig: Signal, ghost from: nat, ghost tried: nat, ghost base: nat,
                   ghost groups: seq<Group>)
    requires w.Valid() && base <= w.now && r.Valid(w, base, w.now) && !r.Closed()
    requires r.group in groups && Faithful(w, from, base, groups) && tried <= |w.attempted|
    requires AliveThroughout(w, base, w.now, r.group) ==> r.Complete(w, base, w.now)
    modifies w`now, w`delivered, w`attempted, r`signals, r`pids, r`trail
    ensures w.Valid() && old(w.now) <= w.now && r.Valid(w, base, w.now) && !r.Closed()
    ensures Faithful(w, from, base, groups) && r.trail == old(r.trail) + [Signalled(sig)]
    ensures old(w.delivered) <= w.delivered && old(w.attempted) <= w.attempted
    ensures forall k | |old(w.delivered)| <= k < |w.delivered| :: w.delivered[k].signal == sig
    ensures forall k | |old(w.attempted)| <= k < |w.attempted| :: w.attempted[k].signal == sig
    ensures Served(w, r, base, tried, from, r.pins, sig)
  {
    hide AliveThroughout, Fair, Got, Tried, MemberOf, MemberStays;
    ghost var start, before, attempts := w.now, w.delivered, w.attempted;
    r.SignalPins(w, base, sig);
    assert forall k | |before| <= k < |w.delivered| :: w.delivered[k] == w.delivered[|before|..][k - |before|];
    assert forall k | |attempts| <= k < |w.attempted| :: w.attempted[k] == w.attempted[|attempts|..][k - |attempts|];
    PinsReached(w, r, base, start, w.delivered[|before|..], sig);
    assert w.delivered[from..] == w.delivered[from..|before|] + w.delivered[|before|..];
    assert w.attempted[tried..] == w.attempted[tried..|attempts|] + w.attempted[|attempts|..];
    ReachedStays(w, base, w.now, w.now, w.delivered[|before|..], w.delivered[from..], r.group, sig);
    TriedStays(w.attempted[|attempts|..], w.attempted[tried..], r.pins, sig);
    forall k | from <= k < |w.delivered|
      ensures Authorised(w.at, base, w.now, groups, w.delivered[k].target)
    {
      if k < |before| {
        assert w.delivered[k] == before[k];
      } else {
        PinnedIsAuthorised(w, r, base, groups, w.delivered[k].target);
      }
    }
  }

  lemma TriedStays(a: seq<Delivery>, b: seq<Delivery>, ps: seq<Pin>, sig: Signal)
    requires Tried(a, ps, sig) && forall x | x in a :: x in b
    ensures Tried(b, ps, sig)
  {
  }

  ghost predicate Recorded(rs: seq<Recovery>, groups: seq<Group>)
  {
    forall i | 0 <= i < |rs| :: rs[i].group in groups
  }

  // Asks every group proven ours to stop.
  method TerminateAll(w: World, rs: seq<Recovery>, ghost from: nat, ghost tried: nat, ghost base: nat,
                      ghost groups: seq<Group>)
    requires w.Valid() && base <= w.now && AllSorted(rs, w, base, w.now) && Recorded(rs, groups)
    requires Faithful(w, from, base, groups) && tried <= |w.attempted|
    requires forall i | 0 <= i < |rs| :: Classified(w, rs[i], base, w.now, Graceful)
    modifies w`now, w`delivered, w`attempted, (set r | r in rs)`signals, (set r | r in rs)`pids, (set r | r in rs)`trail
    ensures w.Valid() && old(w.now) <= w.now && AllSorted(rs, w, base, w.now)
    ensures Faithful(w, from, base, groups)
    ensures old(w.delivered) <= w.delivered && old(w.attempted) <= w.attempted
    ensures forall k | |old(w.attempted)| <= k < |w.attempted| :: w.attempted[k].signal == SIGTERM
    ensures forall i | 0 <= i < |rs| ::
        Progress(w, rs[i], base, tried, from, true, false)
  {
    hide Progress, Classified, AllSorted;
    for i := 0 to |rs|
      invariant w.Valid() && old(w.now) <= w.now && AllSorted(rs, w, base, w.now)
      invariant Faithful(w, from, base, groups) && tried <= |w.attempted|
      invariant old(w.delivered) <= w.delivered && old(w.attempted) <= w.attempted
      invariant forall k | |old(w.attempted)| <= k < |w.attempted| :: w.attempted[k].signal == SIGTERM
      invariant forall j | 0 <= j < i ::
        Progress(w, rs[j], base, tried, from, true, false)
      invariant forall j | i <= j < |rs| :: Classified(w, rs[j], base, w.now, Graceful)
    {
      TerminateNext(w, rs, i, from, tried, base, groups);
    }
  }

  method TerminateNext(w: World, rs: seq<Recovery>, i: nat, ghost from: nat, ghost tried: nat, ghost base: nat,
                       ghost groups: seq<Group>)
    requires w.Valid() && base <= w.now && AllSorted(rs, w, base, w.now) && Recorded(rs, groups) && i < |rs|
    requires Faithful(w, from, base, groups) && tried <= |w.attempted|
    requires forall j | 0 <= j < i ::
        Progress(w, rs[j], base, tried, from, true, false)
    requires forall j | i <= j < |rs| :: Classified(w, rs[j], base, w.now, Graceful)
    modifies w`now, w`delivered, w`attempted, (set r | r in rs)`signals, (set r | r in rs)`pids, (set r | r in rs)`trail
    ensures w.Valid() && old(w.now) <= w.now && AllSorted(rs, w, base, w.now) && Faithful(w, from, base, groups)
    ensures old(w.delivered) <= w.delivered && old(w.attempted) <= w.attempted
    ensures forall k | |old(w.attempted)| <= k < |w.attempted| :: w.attempted[k].signal == SIGTERM
    ensures forall j | 0 <= j <= i ::
        Progress(w, rs[j], base, tried, from, true, false)
    ensures forall j | i < j < |rs| :: Classified(w, rs[j], base, w.now, Graceful)
  {
    hide AliveThroughout, Held, Reached, Tried;
    ghost var before, attempts, deliveries := w.now, w.attempted, w.delivered;
    if rs[i].proven { SignalOne(w, rs[i], SIGTERM, from, tried, base, groups); }
    AllClassified(w, rs, i + 1, base, before);
    forall j | 0 <= j < i
      ensures Progress(w, rs[j], base, tried, from, true, false)
    {
      ProgressAgain(w, rs[j], base, tried, from, true, false, before, attempts, deliveries);
    }
  }

  lemma AllClassified(w: World, rs: seq<Recovery>, lo: nat, base: nat, before: nat)
    requires w.Valid() && base <= before <= w.now && AllSorted(rs, w, base, before)
    requires forall j | lo <= j < |rs| :: Classified(w, rs[j], base, before, Graceful)
    ensures forall j | lo <= j < |rs| :: Classified(w, rs[j], base, w.now, Graceful)
  {
    forall j | lo <= j < |rs|
      ensures Classified(w, rs[j], base, w.now, Graceful)
    {
      ClassifiedStays(w, rs[j], base, before, w.now, Graceful);
    }
  }

  // Pins what was forked meanwhile as well, and kills every pinned member.
  method KillOne(w: World, r: Recovery, ghost from: nat, ghost tried: nat, ghost base: nat, ghost groups: seq<Group>)
    requires w.Valid() && base <= w.now && Sorted(r, w, base, w.now) && r.proven && !r.emptied
    requires r.group in groups && Faithful(w, from, base, groups) && tried <= |w.attempted|
    modifies w`now, w`delivered, w`attempted, r`pins, r`signals, r`pids, r`trail
    ensures w.Valid() && old(w.now) <= w.now && Sorted(r, w, base, w.now) && Faithful(w, from, base, groups)
    ensures old(w.delivered) <= w.delivered && old(w.attempted) <= w.attempted
    ensures forall k | |old(w.delivered)| <= k < |w.delivered| :: w.delivered[k].signal == SIGKILL
    ensures forall k | |old(w.attempted)| <= k < |w.attempted| :: w.attempted[k].signal == SIGKILL
    ensures Served(w, r, base, tried, from, r.pins, SIGKILL) && r.trail == old(r.trail) + [Signalled(SIGKILL)]
  {
    hide Served, AliveThroughout, Recovery.Complete, MemberOf;
    ghost var before := w.now;
    r.Repin(w, base);
    AliveWithin(w, base, before, w.now, w.now, r.group);
    if r.Complete(w, before, w.now) { r.CompleteWithin(w, base, before, w.now, w.now); }
    SignalOne(w, r, SIGKILL, from, tried, base, groups);
  }

  // Either every pin was killed, or the group had been found empty before.
  ghost predicate Killed(w: World, r: Recovery, base: nat, tried: nat, sent: nat)
    reads w, r
  {
    if Signalled(SIGKILL) in r.trail then Served(w, r, base, tried, sent, r.pins, SIGKILL) else r.emptied
  }

  // Kills every proven group not found empty, members forked meanwhile included.
  method KillAll(w: World, rs: seq<Recovery>, ghost from: nat, ghost tried: nat, ghost base: nat,
                 ghost groups: seq<Group>)
    requires w.Valid() && base <= w.now && AllSorted(rs, w, base, w.now) && Recorded(rs, groups)
    requires Faithful(w, from, base, groups) && tried <= |w.attempted|
    requires forall i | 0 <= i < |rs| && rs[i].proven :: Signalled(SIGKILL) !in rs[i].trail
    modifies w`now, w`delivered, w`attempted, (set r | r in rs)`pins, (set r | r in rs)`signals, (set r | r in rs)`pids,
             (set r | r in rs)`trail
    ensures w.Valid() && old(w.now) <= w.now && AllSorted(rs, w, base, w.now)
    ensures Faithful(w, from, base, groups)
    ensures old(w.delivered) <= w.delivered && old(w.attempted) <= w.attempted
    ensures forall k | |old(w.delivered)| <= k < |w.delivered| :: w.delivered[k].signal == SIGKILL
    ensures forall k | |old(w.attempted)| <= k < |w.attempted| :: w.attempted[k].signal == SIGKILL
    ensures forall i | 0 <= i < |rs| && rs[i].proven :: Killed(w, rs[i], base, tried, from)
    ensures forall i | 0 <= i < |rs| :: old(rs[i].trail) <= rs[i].trail
  {
    hide Killed, AllSorted;
    for i := 0 to |rs|
      invariant w.Valid() && old(w.now) <= w.now && AllSorted(rs, w, base, w.now)
      invariant Faithful(w, from, base, groups) && tried <= |w.attempted|
      invariant old(w.delivered) <= w.delivered && old(w.attempted) <= w.attempted
      invariant forall k | |old(w.delivered)| <= k < |w.delivered| :: w.delivered[k].signal == SIGKILL
      invariant forall k | |old(w.attempted)| <= k < |w.attempted| :: w.attempted[k].signal == SIGKILL
      invariant forall j | 0 <= j < i && rs[j].proven :: Killed(w, rs[j], base, tried, from)
      invariant forall j | i <= j < |rs| :: rs[j].trail == old(rs[j].trail)
      invariant forall j | 0 <= j < |rs| :: old(rs[j].trail) <= rs[j].trail
    {
      KillNext(w, rs, i, from, tried, base, groups);
    }
  }

  method KillNext(w: World, rs: seq<Recovery>, i: nat, ghost from: nat, ghost tried: nat, ghost base: nat,
                  ghost groups: seq<Group>)
    requires w.Valid() && base <= w.now && AllSorted(rs, w, base, w.now) && Recorded(rs, groups) && i < |rs|
    requires Faithful(w, from, base, groups) && tried <= |w.attempted|
    requires forall j | 0 <= j < i && rs[j].proven :: Killed(w, rs[j], base, tried, from)
    requires rs[i].proven ==> Signalled(SIGKILL) !in rs[i].trail
    modifies w`now, w`delivered, w`attempted, (set r | r in rs)`pins, (set r | r in rs)`signals, (set r | r in rs)`pids,
             (set r | r in rs)`trail
    ensures w.Valid() && old(w.now) <= w.now && AllSorted(rs, w, base, w.now) && Faithful(w, from, base, groups)
    ensures old(w.delivered) <= w.delivered && old(w.attempted) <= w.attempted
    ensures forall k | |old(w.delivered)| <= k < |w.delivered| :: w.delivered[k].signal == SIGKILL
    ensures forall k | |old(w.attempted)| <= k < |w.attempted| :: w.attempted[k].signal == SIGKILL
    ensures forall j | 0 <= j <= i && rs[j].proven :: Killed(w, rs[j], base, tried, from)
    ensures forall j | i < j < |rs| :: rs[j].trail == old(rs[j].trail)
    ensures forall j | 0 <= j < |rs| :: old(rs[j].trail) <= rs[j].trail
  {
    hide Reached, Tried;
    ghost var before, attempts, deliveries := w.now, w.attempted, w.delivered;
    if rs[i].proven && !rs[i].emptied {
      KillOne(w, rs[i], from, tried, base, groups);
    }
    forall j | 0 <= j < i && rs[j].proven
      ensures Killed(w, rs[j], base, tried, from)
    {
      if Signalled(SIGKILL) in rs[j].trail {
        ServedAgain(w, rs[j], base, tried, from, rs[j].pins, SIGKILL, before, attempts, deliveries);
      }
    }
  }

  method ConcludeAll(w: World, rs: seq<Recovery>, ghost base: nat)
    requires w.Valid() && base <= w.now && AllSorted(rs, w, base, w.now)
    modifies w`now, rs
    ensures w.Valid() && old(w.now) <= w.now
    ensures forall i | 0 <= i < |rs| :: rs[i].Valid(w, base, w.now) && rs[i].Finished()
    ensures forall i | 0 <= i < |rs| :: Concluded(old(rs[i].proven), old(rs[i].pins), old(rs[i].first), old(rs[i].trail),
                                                  old(rs[i].emptied), rs[i])
    ensures forall i | 0 <= i < |rs| && !rs[i].proven :: rs[i].outcome == old(rs[i].outcome)
  {
    hide Concluded, Recovery.Valid;
    for i := 0 to |rs|
      invariant w.Valid() && old(w.now) <= w.now
      invariant forall j | 0 <= j < i :: rs[j].Valid(w, base, w.now) && rs[j].Finished()
      invariant forall j | 0 <= j < i ::
        Concluded(old(rs[j].proven), old(rs[j].pins), old(rs[j].first), old(rs[j].trail), old(rs[j].emptied), rs[j])
      invariant forall j | i <= j < |rs| :: Sorted(rs[j], w, base, w.now)
      invariant forall j | i <= j < |rs| ::
        && rs[j].proven == old(rs[j].proven) && rs[j].pins == old(rs[j].pins) && rs[j].first == old(rs[j].first)
        && rs[j].trail == old(rs[j].trail) && rs[j].emptied == old(rs[j].emptied) && rs[j].outcome == old(rs[j].outcome)
      invariant forall j | 0 <= j < i && !rs[j].proven :: rs[j].outcome == old(rs[j].outcome)
    {
      ghost var before := w.now;
      ConcludeOne(w, rs[i], base);
      forall j | 0 <= j < |rs| && j != i
        ensures j < i ==> rs[j].Valid(w, base, w.now)
        ensures j > i ==> Sorted(rs[j], w, base, w.now)
      {
        rs[j].ValidLater(w, base, before, w.now);
      }
    }
  }

  method ConcludeOne(w: World, r: Recovery, ghost base: nat)
    requires w.Valid() && base <= w.now && Sorted(r, w, base, w.now)
    modifies w`now, r
    ensures w.Valid() && old(w.now) <= w.now && r.Valid(w, base, w.now) && r.Finished()
    ensures Concluded(old(r.proven), old(r.pins), old(r.first), old(r.trail), old(r.emptied), r)
    ensures !r.proven ==> r.outcome == old(r.outcome)
  {
    hide Gone, Held, MemberOf, Led, Holds;
    if r.proven { r.Conclude(w, base); }
  }

  // What deciding a group's outcome leaves as it was, and the outcome of one that was
  // claimed.
  ghost predicate Concluded(proven: bool, pins: seq<Pin>, first: seq<Pin>, trail: seq<Touch>, emptied: bool, r: Recovery)
    reads r
  {
    && r.proven == proven && r.pins == pins && r.first == first && SameSignals(trail, r.trail)
    && (emptied ==> r.emptied)
    && (proven ==> (r.emptied <==> r.Closed())
                   && r.outcome == if !r.emptied then Unknown else if r.signals != [] then Terminated else Empty)
  }

  method FinishAll(rs: seq<Recovery>, outcome: Outcome, why: Reason)
    modifies rs
    ensures forall i | 0 <= i < |rs| :: rs[i].outcome == outcome && rs[i].reason == why
    ensures forall i | 0 <= i < |rs| :: rs[i].trail == old(rs[i].trail) && rs[i].proven == old(rs[i].proven)
  {
    for i := 0 to |rs|
      invariant forall j | 0 <= j < |rs| :: rs[j].trail == old(rs[j].trail) && rs[j].proven == old(rs[j].proven)
      invariant forall j | 0 <= j < i :: rs[j].outcome == outcome && rs[j].reason == why
    {
      rs[i].Finish(outcome, why);
    }
  }

  // What was done about one claimed group: its members were asked first if there was
  // to be a grace period, and all its pins were killed unless it was found empty.
  ghost predicate Handled(r: Recovery, attempts: seq<Delivery>, graceful: bool)
    reads r
  {
    && (graceful ==> Signalled(SIGTERM) in r.trail && Tried(attempts, r.first, SIGTERM))
    && (if Signalled(SIGKILL) in r.trail then Tried(attempts, r.pins, SIGKILL) else r.Closed())
    && r.outcome == if !r.Closed() then Unknown else if r.signals != [] then Terminated else Empty
  }

  // SIGTERM comes before any SIGKILL.
  ghost predicate TermFirst(attempts: seq<Delivery>)
  {
    forall j, k | 0 <= j < k < |attempts| && attempts[j].signal == SIGKILL :: attempts[k].signal == SIGKILL
  }

  // Asks, kills and decides about the groups proven ours.
  method SignalAll(w: World, rs: seq<Recovery>, ghost base: nat, ghost groups: seq<Group>, graceful: bool, polls: nat,
                   settle: nat)
    requires w.Valid() && base <= w.now && AllSorted(rs, w, base, w.now) && Recorded(rs, groups)
    requires forall i | 0 <= i < |rs| :: Classified(w, rs[i], base, w.now, if graceful then Graceful else Force)
    modifies w`now, w`delivered, w`attempted, rs
    ensures w.Valid() && old(w.now) <= w.now && old(w.delivered) <= w.delivered && old(w.attempted) <= w.attempted
    ensures forall i | 0 <= i < |rs| :: rs[i].Valid(w, base, w.now) && rs[i].Finished()
    ensures Faithful(w, |old(w.delivered)|, base, groups)
    ensures !graceful ==> forall k | |old(w.delivered)| <= k < |w.delivered| :: w.delivered[k].signal == SIGKILL
    ensures TermFirst(w.attempted[|old(w.attempted)|..])
    ensures forall i | 0 <= i < |rs| :: rs[i].proven == old(rs[i].proven)
    ensures forall i | 0 <= i < |rs| && !rs[i].proven :: rs[i].outcome == old(rs[i].outcome)
    ensures forall i | 0 <= i < |rs| && rs[i].proven :: Handled(rs[i], w.attempted[|old(w.attempted)|..], graceful)
    ensures forall i | 0 <= i < |rs| && rs[i].proven ::
      && Reached(w, base, w.now, w.delivered[|old(w.delivered)|..], rs[i].group, SIGKILL)
      && (graceful ==> Reached(w, base, w.now, w.delivered[|old(w.delivered)|..], rs[i].group, SIGTERM))
  {
    assert Faithful(w, |w.delivered|, base, groups);
    hide Served, Killed, Classified, AllSorted, Faithful, Reached, Handled, Recovery.Valid, Progress, TermFirst, Decided;
    ghost var from, tried := |w.delivered|, |w.attempted|;
    NothingSent(w, rs, base, from, tried, graceful);
    if graceful {
      AskAll(w, rs, from, tried, base, groups);
      AwaitOn(w, rs, from, tried, base, groups, true, false, polls);
    }
    ghost var asked := |w.attempted|;
    KillOn(w, rs, from, tried, base, groups, graceful);
    TermThenKill(w.attempted, tried, asked);
    AwaitOn(w, rs, from, tried, base, groups, graceful, true, settle);
    ConcludeOn(w, rs, from, tried, base, groups, graceful);
    AllHandled(w, rs, base, tried, from, graceful);
  }

  lemma AllHandled(w: World, rs: seq<Recovery>, base: nat, tried: nat, sent: nat, graceful: bool)
    requires w.Valid() && base <= w.now && tried <= |w.attempted| && sent <= |w.delivered|
    requires forall i | 0 <= i < |rs| ::
      rs[i].Valid(w, base, w.now) && Progress(w, rs[i], base, tried, sent, graceful, true) && Decided(rs[i])
    ensures forall i | 0 <= i < |rs| && rs[i].proven ::
      && Handled(rs[i], w.attempted[tried..], graceful)
      && Reached(w, base, w.now, w.delivered[sent..], rs[i].group, SIGKILL)
      && (graceful ==> Reached(w, base, w.now, w.delivered[sent..], rs[i].group, SIGTERM))
  {
    hide Progress, Handled, Reached, Recovery.Valid, Decided;
    forall i | 0 <= i < |rs| && rs[i].proven
      ensures Handled(rs[i], w.attempted[tried..], graceful)
      ensures Reached(w, base, w.now, w.delivered[sent..], rs[i].group, SIGKILL)
      ensures graceful ==> Reached(w, base, w.now, w.delivered[sent..], rs[i].group, SIGTERM)
    {
      ProgressIsHandled(w, rs[i], base, tried, sent, graceful);
    }
  }

  lemma TermThenKill(attempts: seq<Delivery>, tried: nat, asked: nat)
    requires tried <= asked <= |attempts|
    requires forall k | tried <= k < asked :: attempts[k].signal == SIGTERM
    requires forall k | asked <= k < |attempts| :: attempts[k].signal == SIGKILL
    ensures TermFirst(attempts[tried..])
  {
  }

  // How far one group has come.
  ghost predicate Progress(w: World, r: Recovery, base: nat, tried: nat, sent: nat, graceful: bool, killed: bool)
    reads w, r
  {
    r.proven ==>
      && (graceful ==> Served(w, r, base, tried, sent, r.first, SIGTERM))
      && if killed then Killed(w, r, base, tried, sent) else Signalled(SIGKILL) !in r.trail
  }

  lemma ProgressAgain(w: World, r: Recovery, base: nat, tried: nat, sent: nat, graceful: bool, killed: bool, before: nat,
                      attempts: seq<Delivery>, deliveries: seq<Delivery>)
    requires w.Valid() && base <= before <= w.now && tried <= |attempts| && sent <= |deliveries|
    requires attempts <= w.attempted && deliveries <= w.delivered
    requires r.proven && graceful ==>
      && Signalled(SIGTERM) in r.trail && Tried(attempts[tried..], r.first, SIGTERM)
      && Reached(w, base, before, deliveries[sent..], r.group, SIGTERM)
    requires r.proven ==>
      if !killed then Signalled(SIGKILL) !in r.trail
      else if Signalled(SIGKILL) !in r.trail then r.emptied
      else
        Tried(attempts[tried..], r.pins, SIGKILL) && Reached(w, base, before, deliveries[sent..], r.group, SIGKILL)
    ensures Progress(w, r, base, tried, sent, graceful, killed)
  {
    hide Served;
    if r.proven && graceful {
      ServedAgain(w, r, base, tried, sent, r.first, SIGTERM, before, attempts, deliveries);
    }
    if r.proven && killed && Signalled(SIGKILL) in r.trail {
      ServedAgain(w, r, base, tried, sent, r.pins, SIGKILL, before, attempts, deliveries);
    }
  }

  lemma NothingSent(w: World, rs: seq<Recovery>, base: nat, sent: nat, tried: nat, graceful: bool)
    requires forall i | 0 <= i < |rs| :: Classified(w, rs[i], base, w.now, if graceful then Graceful else Force)
    ensures !graceful ==> forall i | 0 <= i < |rs| :: Progress(w, rs[i], base, tried, sent, false, false)
  {
  }

  method AskAll(w: World, rs: seq<Recovery>, ghost from: nat, ghost tried: nat, ghost base: nat, ghost groups: seq<Group>)
    requires w.Valid() && base <= w.now && AllSorted(rs, w, base, w.now) && Recorded(rs, groups)
    requires from == |w.delivered| && tried == |w.attempted|
    requires forall i | 0 <= i < |rs| :: Classified(w, rs[i], base, w.now, Graceful)
    modifies w`now, w`delivered, w`attempted, (set r | r in rs)`signals, (set r | r in rs)`pids, (set r | r in rs)`trail
    ensures w.Valid() && old(w.now) <= w.now && AllSorted(rs, w, base, w.now) && Faithful(w, from, base, groups)
    ensures old(w.delivered) <= w.delivered && old(w.attempted) <= w.attempted
    ensures forall k | tried <= k < |w.attempted| :: w.attempted[k].signal == SIGTERM
    ensures forall i | 0 <= i < |rs| :: Progress(w, rs[i], base, tried, from, true, false)
  {
    hide Progress, Classified, AllSorted;
    TerminateAll(w, rs, from, tried, base, groups);
  }

  method AwaitOn(w: World, rs: seq<Recovery>, ghost from: nat, ghost tried: nat, ghost base: nat, ghost groups: seq<Group>,
                 graceful: bool, killed: bool, polls: nat)
    requires tried <= |w.attempted| && w.Valid() && base <= w.now && AllSorted(rs, w, base, w.now) && Faithful(w, from, base, groups)
    requires forall i | 0 <= i < |rs| :: Progress(w, rs[i], base, tried, from, graceful, killed)
    modifies w`now, (set r | r in rs)`trail, (set r | r in rs)`decidedAt, (set r | r in rs)`emptied
    ensures w.Valid() && old(w.now) <= w.now && AllSorted(rs, w, base, w.now) && Faithful(w, from, base, groups)
    ensures forall i | 0 <= i < |rs| :: Progress(w, rs[i], base, tried, from, graceful, killed)
  {
    hide AllSorted, Reached, Tried;
    ghost var before := w.now;
    ghost var rounds := AwaitEmpty(w, rs, base, polls);
    forall i | 0 <= i < |rs|
      ensures Progress(w, rs[i], base, tried, from, graceful, killed)
    {
      ProgressAgain(w, rs[i], base, tried, from, graceful, killed, before, w.attempted, w.delivered);
    }
  }

  method KillOn(w: World, rs: seq<Recovery>, ghost from: nat, ghost tried: nat, ghost base: nat, ghost groups: seq<Group>,
                ghost graceful: bool)
    requires w.Valid() && base <= w.now && AllSorted(rs, w, base, w.now) && Faithful(w, from, base, groups)
    requires Recorded(rs, groups) && tried <= |w.attempted|
    requires forall i | 0 <= i < |rs| :: Progress(w, rs[i], base, tried, from, graceful, false)
    modifies w`now, w`delivered, w`attempted, (set r | r in rs)`pins, (set r | r in rs)`signals, (set r | r in rs)`pids,
             (set r | r in rs)`trail
    ensures w.Valid() && old(w.now) <= w.now && AllSorted(rs, w, base, w.now) && Faithful(w, from, base, groups)
    ensures old(w.delivered) <= w.delivered && old(w.attempted) <= w.attempted
    ensures forall k | |old(w.delivered)| <= k < |w.delivered| :: w.delivered[k].signal == SIGKILL
    ensures forall k | |old(w.attempted)| <= k < |w.attempted| :: w.attempted[k].signal == SIGKILL
    ensures forall i | 0 <= i < |rs| :: Progress(w, rs[i], base, tried, from, graceful, true)
  {
    hide AllSorted, Reached, Tried, Killed;
    ghost var before, attempts, deliveries := w.now, w.attempted, w.delivered;
    KillAll(w, rs, from, tried, base, groups);
    forall i | 0 <= i < |rs| && rs[i].proven && graceful
      ensures Served(w, rs[i], base, tried, from, rs[i].first, SIGTERM)
    {
      assert Signalled(SIGTERM) in old(rs[i].trail) ==> Signalled(SIGTERM) in rs[i].trail;
      ServedAgain(w, rs[i], base, tried, from, rs[i].first, SIGTERM, before, attempts, deliveries);
    }
  }

  method ConcludeOn(w: World, rs: seq<Recovery>, ghost from: nat, ghost tried: nat, ghost base: nat,
                    ghost groups: seq<Group>, ghost graceful: bool)
    requires tried <= |w.attempted| && w.Valid() && base <= w.now && AllSorted(rs, w, base, w.now) && Faithful(w, from, base, groups)
    requires forall i | 0 <= i < |rs| :: Progress(w, rs[i], base, tried, from, graceful, true)
    modifies w`now, rs
    ensures w.Valid() && old(w.now) <= w.now && Faithful(w, from, base, groups)
    ensures forall i | 0 <= i < |rs| :: rs[i].Valid(w, base, w.now) && rs[i].Finished()
    ensures forall i | 0 <= i < |rs| :: rs[i].proven == old(rs[i].proven)
    ensures forall i | 0 <= i < |rs| :: Progress(w, rs[i], base, tried, from, graceful, true) && Decided(rs[i])
    ensures forall i | 0 <= i < |rs| && !rs[i].proven :: rs[i].outcome == old(rs[i].outcome)
  {
    hide AllSorted, Recovery.Valid, Reached, Tried;
    ghost var before := w.now;
    ConcludeAll(w, rs, base);
    forall i | 0 <= i < |rs|
      ensures Progress(w, rs[i], base, tried, from, graceful, true) && Decided(rs[i])
    {
      ProgressAgain(w, rs[i], base, tried, from, graceful, true, before, w.attempted, w.delivered);
    }
  }

  // The outcome of a claimed group says what was done and found.
  ghost predicate Decided(r: Recovery)
    reads r
  {
    r.proven ==>
      && (r.emptied <==> r.Closed())
      && r.outcome == if !r.emptied then Unknown else if r.signals != [] then Terminated else Empty
  }

  lemma ProgressIsHandled(w: World, r: Recovery, base: nat, tried: nat, sent: nat, graceful: bool)
    requires w.Valid() && base <= w.now && r.Valid(w, base, w.now) && r.proven
    requires Progress(w, r, base, tried, sent, graceful, true) && Decided(r)
    requires tried <= |w.attempted| && sent <= |w.delivered|
    ensures Handled(r, w.attempted[tried..], graceful)
    ensures Reached(w, base, w.now, w.delivered[sent..], r.group, SIGKILL)
    ensures graceful ==> Reached(w, base, w.now, w.delivered[sent..], r.group, SIGTERM)
  {
    if Signalled(SIGKILL) !in r.trail { EmptiedReached(w, r, base, w.delivered[sent..], SIGKILL); }
  }

  lemma SoundVerdicts(w: World, rs: seq<Recovery>, base: nat, recorded: Host)
    requires w.Valid() && forall i | 0 <= i < |rs| :: rs[i].Valid(w, base, w.now)
    ensures forall i | 0 <= i < |rs| && (rs[i].outcome.Empty? || rs[i].outcome.Terminated?) ::
      Cleared(w.at, base, w.now, recorded, rs[i].group)
  {
    forall i | 0 <= i < |rs| && (rs[i].outcome.Empty? || rs[i].outcome.Terminated?)
      ensures Cleared(w.at, base, w.now, recorded, rs[i].group)
    {
      GoneStays(w.at, base, rs[i].decidedAt, w.now, rs[i].group);
    }
  }

  // What is known of a record whose numbers were looked up.
  ghost predicate LookedUp(w: World, base: nat, r: Recovery, mode: Mode, attempts: seq<Delivery>, deliveries: seq<Delivery>)
    reads r, w
  {
    && (r.group.pgid > 1 && !Held(w.at, base, w.now, r.group.pgid) ==> r.outcome.Empty?)
    && (AliveThroughout(w, base, w.now, r.group) ==> if mode.AssessOnly? then r.outcome.LiveOutcome? else r.proven)
    && (r.proven ==> !mode.AssessOnly? && Handled(r, attempts, mode.Graceful?))
    && (!mode.AssessOnly? ==> Reached(w, base, w.now, deliveries, r.group, SIGKILL))
    && (mode.Graceful? ==> Reached(w, base, w.now, deliveries, r.group, SIGTERM))
  }

  // Resolves the process groups of a crashed daemon's record.
  method RecoverGroups(w: World, groups: seq<Group>, recorded: Host, mode: Mode, polls: nat, settle: nat)
    returns (rs: seq<Recovery>)
    requires w.Valid()
    modifies w`now, w`delivered, w`attempted
    ensures w.Valid() && old(w.now) <= w.now
    ensures |rs| == |groups| && forall i | 0 <= i < |rs| :: rs[i].group == groups[i] && rs[i].Finished()
    // Every verdict of empty or terminated is true, now and ever after.
    ensures forall i | 0 <= i < |rs| && (rs[i].outcome.Empty? || rs[i].outcome.Terminated?) ::
      Cleared(w.at, old(w.now), w.now, recorded, groups[i])
    // Once found empty a group is never probed or signalled again.
    ensures forall i | 0 <= i < |rs| :: rs[i].Quiet()
    // Every signal went to a process proven a member of a recorded group.
    ensures old(w.delivered) <= w.delivered && old(w.attempted) <= w.attempted
    ensures forall k | |old(w.delivered)| <= k < |w.delivered| ::
      Authorised(w.at, old(w.now), w.now, groups, w.delivered[k].target)
    ensures mode.AssessOnly? ==> w.delivered == old(w.delivered) && w.attempted == old(w.attempted)
    ensures mode.Force? ==> forall k | |old(w.delivered)| <= k < |w.delivered| :: w.delivered[k].signal == SIGKILL
    ensures TermFirst(w.attempted[|old(w.attempted)|..])
    // A record of another boot, or one that cannot be read here, is answered as a whole.
    ensures var (outcome, why) := HostVerdict(w.linux, recorded, w.host, w.ownProcfs);
      if !why.NoReason? then forall i | 0 <= i < |rs| :: rs[i].outcome == outcome && rs[i].reason == why
      // Otherwise nobody who had to be claimed, asked or killed is left out.
      else forall i | 0 <= i < |rs| ::
        LookedUp(w, old(w.now), rs[i], mode, w.attempted[|old(w.attempted)|..], w.delivered[|old(w.delivered)|..])
  {
    hide AliveThroughout, Held, Handled, Reached, Classified, AllSorted, Authorised, Cleared, LookedUp, HostVerdict;
    ghost var base := w.now;
    rs := Enlist(groups);
    var (outcome, why) := HostVerdict(w.linux, recorded, w.host, w.ownProcfs);
    if !why.NoReason? {
      FinishAll(rs, outcome, why);
      OtherBoot(w, base, recorded, outcome);
      assert w.attempted[|old(w.attempted)|..] == [];
      return;
    }
    ClassifyAll(w, rs, base, mode);
    ghost var then', claimed, answers := w.now, Claimed(rs), Answers(rs);
    NowClassified(w, rs, base, mode);
    if !mode.AssessOnly? { SignalAll(w, rs, base, groups, mode.Graceful?, polls, settle); }
    SoundVerdicts(w, rs, base, recorded);
    AllQuiet(w, rs, base);
    assert mode.AssessOnly? ==> w.attempted[|old(w.attempted)|..] == [];
    forall i | 0 <= i < |rs|
      ensures LookedUp(w, base, rs[i], mode, w.attempted[|old(w.attempted)|..], w.delivered[|old(w.delivered)|..])
    {
      NowLookedUp(w, base, then', rs[i], mode, w.attempted[|old(w.attempted)|..], w.delivered[|old(w.delivered)|..],
                  claimed[i], answers[i]);
    }
  }

  ghost function Claimed(rs: seq<Recovery>): seq<bool>
    reads rs
  {
    seq(|rs|, i requires 0 <= i < |rs| reads rs => rs[i].proven)
  }

  ghost function Answers(rs: seq<Recovery>): seq<Outcome>
    reads rs
  {
    seq(|rs|, i requires 0 <= i < |rs| reads rs => rs[i].outcome)
  }

  // What classification concluded of one group.
  ghost predicate Concludes(w: World, base: nat, to: nat, g: Group, mode: Mode, claimed: bool, answer: Outcome)
  {
    && (g.pgid > 1 && !Held(w.at, base, to, g.pgid) ==> !claimed && answer.Empty?)
    && (AliveThroughout(w, base, to, g) ==> if mode.AssessOnly? then answer.LiveOutcome? else claimed)
    && (mode.AssessOnly? ==> !claimed)
  }

  lemma NowClassified(w: World, rs: seq<Recovery>, base: nat, mode: Mode)
    requires AllSorted(rs, w, base, w.now) && forall i | 0 <= i < |rs| :: Classified(w, rs[i], base, w.now, mode)
    ensures forall i | 0 <= i < |rs| ::
      Concludes(w, base, w.now, rs[i].group, mode, Claimed(rs)[i], Answers(rs)[i])
    ensures mode.AssessOnly? ==> forall i | 0 <= i < |rs| :: rs[i].Valid(w, base, w.now) && rs[i].Finished()
  {
    hide AliveThroughout, Held, Recovery.Complete;
  }

  lemma AllQuiet(w: World, rs: seq<Recovery>, base: nat)
    requires forall i | 0 <= i < |rs| :: rs[i].Valid(w, base, w.now)
    ensures forall i | 0 <= i < |rs| :: rs[i].Quiet()
  {
  }

  lemma NowLookedUp(w: World, base: nat, before: nat, r: Recovery, mode: Mode, attempts: seq<Delivery>,
                    deliveries: seq<Delivery>, claimed: bool, answer: Outcome)
    requires w.Valid() && base <= before <= w.now
    requires Concludes(w, base, before, r.group, mode, claimed, answer)
    requires r.proven == claimed && (!claimed ==> r.outcome == answer)
    requires claimed ==> Handled(r, attempts, mode.Graceful?) && Reached(w, base, w.now, deliveries, r.group, SIGKILL)
    requires claimed && mode.Graceful? ==> Reached(w, base, w.now, deliveries, r.group, SIGTERM)
    ensures LookedUp(w, base, r, mode, attempts, deliveries)
  {
    hide AliveThroughout, Held, Handled, Reached;
    HeldWithin(w.at, base, base, before, w.now, r.group.pgid);
    AliveWithin(w, base, base, before, w.now, r.group);
    if !AliveThroughout(w, base, w.now, r.group) { DeadReached(w, base, w.now, deliveries, r.group); }
  }

  lemma DeadReached(w: World, base: nat, to: nat, deliveries: seq<Delivery>, g: Group)
    requires !AliveThroughout(w, base, to, g)
    ensures forall sig: Signal :: Reached(w, base, to, deliveries, g, sig)
  {
  }

  // A record of another boot is cleared as a whole.
  lemma OtherBoot(w: World, base: nat, recorded: Host, outcome: Outcome)
    requires w.Valid() && HostVerdict(w.linux, recorded, w.host, w.ownProcfs).0 == outcome
    ensures !outcome.Terminated?
    ensures !HostVerdict(w.linux, recorded, w.host, w.ownProcfs).1.NoReason? ==> !outcome.Undecided?
    ensures outcome.Empty? ==> forall g: Group :: Cleared(w.at, base, w.now, recorded, g)
  {
    BehaviourEvolves(w.at, 0, w.now);
  }

  // ── taking over a crashed run ───────────────────────────────────────────────

  datatype RecordRead = Missing | Unreadable | Record(host: Host, groups: Option<seq<Group>>)

  // Accepted(stale): a new run may start; stale means a PID file is to be removed.
  datatype Assessment = Accepted(stale: bool) | AlreadyRunning | CrashedRun | UnreadableRecord

  // Nothing recorded can be left: the record is of another boot, or nobody held any of
  // its numbers meanwhile.
  ghost predicate Deserted(w: World, from: nat, to: nat, recorded: Host, groups: seq<Group>)
  {
    var (outcome, why) := HostVerdict(w.linux, recorded, w.host, w.ownProcfs);
    outcome.Empty? || (why.NoReason? && forall g | g in groups :: g.pgid > 1 && !Held(w.at, from, to, g.pgid))
  }

  // May the next run have the place of the last one?
  method AssessCrashedRun(w: World, present: bool, daemonAlive: bool, read: RecordRead) returns (r: Assessment)
    requires w.Valid()
    modifies w`now, w`delivered, w`attempted
    ensures w.Valid() && old(w.now) <= w.now && w.delivered == old(w.delivered) && w.attempted == old(w.attempted)
    // Accepting a record means that all it lists is gone; what is deserted is accepted.
    ensures r.Accepted? && present && read.Record? && read.groups.Some? ==>
      forall g | g in read.groups.value :: Cleared(w.at, old(w.now), w.now, read.host, g)
    ensures present && !daemonAlive && read.Record? && read.groups.None? ==> r == Accepted(true)
    ensures present && !daemonAlive && read.Record? && read.groups.Some? ==>
      Deserted(w, old(w.now), w.now, read.host, read.groups.value) ==> r == Accepted(true)
    ensures r == Accepted(false) <==> !present || (!daemonAlive && read.Missing?)
    ensures r.AlreadyRunning? <==> present && daemonAlive
    ensures r.UnreadableRecord? <==> present && !daemonAlive && read.Unreadable?
    ensures r.CrashedRun? ==> read.Record? && read.groups.Some?
  {
    if !present { return Accepted(false); }
    if daemonAlive { return AlreadyRunning; }
    match read
    case Missing => return Accepted(false);
    case Unreadable => return UnreadableRecord;
    case Record(host, groups) =>
      if groups.Some? {
        hide Held, AliveThroughout, Cleared, Reached, Handled, TermFirst;
        var rs := RecoverGroups(w, groups.value, host, AssessOnly, 0, 0);
        for i := 0 to |rs|
          invariant forall j | 0 <= j < i :: rs[j].outcome.Empty?
        {
          if !rs[i].outcome.Empty? {
            assert rs[i].group in groups.value;
            return CrashedRun;
          }
        }
      }
      return Accepted(true);
  }
}
