/**
 The process table a supervisor and its crash recovery run against.

 A process is named by its index in the table, an identity that is never reused;
 the numbers the kernel hands out (pid, pgid, start time) can be. A table changes
 by four events only, and five rules bound them:

 - process ID reuse (POSIX.1-2017, XBD section 4.14): a new process never takes a
   number that an unreaped process still holds as its pid or its process group;
 - within one boot no two processes share both pid and start time;
 - a group gains members only when a live member forks;
 - only a zombie is reaped, and what is reaped stays reaped;
 - no process leaves its group.
 */
module Kernel {
  datatype Status = Live | Zombie | Reaped

  // `group` is the identity of the process that founded the group.
  datatype Proc = Proc(pid: int, pgid: int, start: nat, group: nat, status: Status)
  {
    predicate Unreaped() { status != Reaped }
  }

  datatype Table = Table(boot: string, procs: seq<Proc>)

  datatype Event =
    | Idle
    | Fork(parent: nat, pid: int, start: nat)
    | Spawn(pid: int, start: nat)
    | Exit(who: nat)
    | Reap(who: nat)

  // The founding process of a group, in the boot it was started in.
  datatype GroupRef = GroupRef(boot: string, leader: nat)

  // ── events ──────────────────────────────────────────────────────────────────

  ghost predicate FreeNumber(t: Table, n: int)
  {
    && n > 1
    && forall i | 0 <= i < |t.procs| && t.procs[i].Unreaped() :: t.procs[i].pid != n && t.procs[i].pgid != n
  }

  ghost predicate FreeStamp(t: Table, pid: int, start: nat)
  {
    start > 0 && forall i | 0 <= i < |t.procs| :: t.procs[i].pid != pid || t.procs[i].start != start
  }

  ghost predicate Enabled(t: Table, e: Event)
  {
    match e
    case Idle => true
    case Fork(p, pid, start) =>
      p < |t.procs| && t.procs[p].status == Live && FreeNumber(t, pid) && FreeStamp(t, pid, start)
    case Spawn(pid, start) => FreeNumber(t, pid) && FreeStamp(t, pid, start)
    case Exit(i) => i < |t.procs| && t.procs[i].status == Live
    case Reap(i) => i < |t.procs| && t.procs[i].status == Zombie
  }

  ghost function Apply(t: Table, e: Event): Table
    requires Enabled(t, e)
  {
    match e
    case Idle => t
    case Fork(p, pid, start) =>
      t.(procs := t.procs + [Proc(pid, t.procs[p].pgid, start, t.procs[p].group, Live)])
    case Spawn(pid, start) => t.(procs := t.procs + [Proc(pid, pid, start, |t.procs|, Live)])
    case Exit(i) => t.(procs := t.procs[i := t.procs[i].(status := Zombie)])
    case Reap(i) => t.(procs := t.procs[i := t.procs[i].(status := Reaped)])
  }

  ghost predicate Next(t: Table, t': Table)
  {
    exists e :: Enabled(t, e) && t' == Apply(t, e)
  }

  // ── invariant ───────────────────────────────────────────────────────────────

  ghost predicate Founded(t: Table)
  {
    forall i | 0 <= i < |t.procs| ::
      var p := t.procs[i];
      && p.pid > 1 && p.start > 0 && p.group <= i
      && t.procs[p.group].pid == p.pgid && t.procs[p.group].group == p.group
  }

  ghost predicate PidsUnique(t: Table)
  {
    forall i, j | 0 <= i < |t.procs| && 0 <= j < |t.procs| && t.procs[i].Unreaped() && t.procs[j].Unreaped() ::
      t.procs[i].pid == t.procs[j].pid ==> i == j
  }

  ghost predicate StampsUnique(t: Table)
  {
    forall i, j | 0 <= i < |t.procs| && 0 <= j < |t.procs| ::
      t.procs[i].pid == t.procs[j].pid && t.procs[i].start == t.procs[j].start ==> i == j
  }

  // A group number held by an unreaped process names one group, and the only
  // process that can hold it as a pid is that group's founder.
  ghost predicate NumbersReserved(t: Table)
  {
    forall i, j | 0 <= i < |t.procs| && 0 <= j < |t.procs| && t.procs[i].Unreaped() && t.procs[j].Unreaped() ::
      && (t.procs[i].pgid == t.procs[j].pgid ==> t.procs[i].group == t.procs[j].group)
      && (t.procs[i].pgid == t.procs[j].pid ==> t.procs[i].group == j)
  }

  ghost predicate Valid(t: Table)
  {
    Founded(t) && PidsUnique(t) && StampsUnique(t) && NumbersReserved(t)
  }

  lemma ApplyKeepsValid(t: Table, e: Event)
    requires Valid(t) && Enabled(t, e)
    ensures Valid(Apply(t, e))
  {
    match e
    case Idle =>
    case Fork(p, pid, start) => ArrivalKeepsValid(t, Apply(t, e), t.procs[p].pgid, t.procs[p].group, p);
    case Spawn(pid, start) => ArrivalKeepsValid(t, Apply(t, e), pid, |t.procs|, |t.procs|);
    case Exit(i) => AgingKeepsValid(t, Apply(t, e));
    case Reap(i) => AgingKeepsValid(t, Apply(t, e));
  }

  // A process arrives either in the group of a live parent or as the founder of
  // its own.
  ghost predicate Arrives(t: Table, t': Table, pgid: int, group: nat, parent: nat)
  {
    && |t'.procs| == |t.procs| + 1 && (forall i | 0 <= i < |t.procs| :: t'.procs[i] == t.procs[i])
    && var p := t'.procs[|t.procs|];
      && p.pgid == pgid && p.group == group && p.status == Live
      && FreeNumber(t, p.pid) && FreeStamp(t, p.pid, p.start)
      && (if parent < |t.procs|
          then t.procs[parent].Unreaped() && t.procs[parent].pgid == pgid && t.procs[parent].group == group
          else group == |t.procs| && pgid == p.pid)
  }

  lemma ArrivalKeepsValid(t: Table, t': Table, pgid: int, group: nat, parent: nat)
    requires Valid(t) && Arrives(t, t', pgid, group, parent)
    ensures Valid(t')
  {
    assert Founded(t') && PidsUnique(t') && StampsUnique(t') by { hide NumbersReserved; }
    hide Founded, PidsUnique, StampsUnique;
    ArrivalReserves(t, t', pgid, group, parent);
  }

  lemma ArrivalReserves(t: Table, t': Table, pgid: int, group: nat, parent: nat)
    requires NumbersReserved(t) && Arrives(t, t', pgid, group, parent)
    ensures NumbersReserved(t')
  {
    var n := |t.procs|;
    forall i, j | 0 <= i <= n && 0 <= j <= n && t'.procs[i].Unreaped() && t'.procs[j].Unreaped()
      ensures t'.procs[i].pgid == t'.procs[j].pgid ==> t'.procs[i].group == t'.procs[j].group
      ensures t'.procs[i].pgid == t'.procs[j].pid ==> t'.procs[i].group == j
    {
      assert i < n ==> t.procs[i] == t'.procs[i];
      assert j < n ==> t.procs[j] == t'.procs[j];
    }
  }

  lemma AgingKeepsValid(t: Table, t': Table)
    requires Valid(t) && |t'.procs| == |t.procs|
    requires forall i | 0 <= i < |t.procs| ::
      t'.procs[i] == t.procs[i].(status := t'.procs[i].status) && Later(t.procs[i].status, t'.procs[i].status)
    ensures Valid(t')
  {
    assert Founded(t') by { hide PidsUnique, StampsUnique, NumbersReserved, Later; }
    assert PidsUnique(t') by { hide StampsUnique, NumbersReserved, Founded; }
    assert StampsUnique(t') by { hide PidsUnique, NumbersReserved, Founded, Later; }
    assert NumbersReserved(t') by { hide PidsUnique, StampsUnique, Founded; }
  }

  // ── observations ────────────────────────────────────────────────────────────

  ghost predicate LiveIn(t: Table, leader: nat)
  {
    exists i | 0 <= i < |t.procs| :: t.procs[i].status == Live && t.procs[i].group == leader
  }

  // The group has a live member: false for a group of another boot, whose
  // processes are all gone.
  ghost predicate LiveGroup(t: Table, g: GroupRef)
  {
    t.boot == g.boot && LiveIn(t, g.leader)
  }

  // No live process holds n as its process group: what a membership walk that
  // finds nothing establishes.
  ghost predicate NoLiveHolder(t: Table, n: int)
  {
    forall i | 0 <= i < |t.procs| && t.procs[i].status == Live :: t.procs[i].pgid != n
  }

  ghost predicate Leads(t: Table, i: nat, pid: int)
  {
    i < |t.procs| && t.procs[i].pid == pid && t.procs[i].group == i
  }

  // While its founder is unreaped, a group's number reaches that group and
  // nothing else.
  lemma NumberReachesOneGroup(t: Table, leader: nat, i: nat)
    requires Valid(t) && leader < |t.procs| && i < |t.procs|
    requires t.procs[leader].group == leader && t.procs[leader].Unreaped()
    requires t.procs[i].Unreaped()
    ensures t.procs[i].pgid == t.procs[leader].pid <==> t.procs[i].group == leader
  {
  }

  // A membership walk that finds nothing under the number of a group proves that
  // group has no live member, whoever holds the number now.
  lemma NoHolderNoMember(t: Table, leader: nat, n: int)
    requires Valid(t) && Leads(t, leader, n) && NoLiveHolder(t, n)
    ensures !LiveIn(t, leader)
  {
  }

  // A number taken as a pid by another process proves the group it used to name
  // has no unreaped member left.
  lemma ReusedNumberNoMember(t: Table, leader: nat, other: nat)
    requires Valid(t) && leader < |t.procs| && other < |t.procs| && other != leader
    requires t.procs[leader].group == leader && t.procs[leader].pid == t.procs[other].pid
    requires t.procs[other].Unreaped()
    ensures !LiveIn(t, leader)
  {
  }

  // ── time ────────────────────────────────────────────────────────────────────

  predicate Later(a: Status, b: Status)
  {
    a == b || a == Live || b == Reaped
  }

  // What any number of events preserves.
  ghost predicate Evolves(t: Table, t': Table)
  {
    && t.boot == t'.boot && |t.procs| <= |t'.procs|
    && (forall i | 0 <= i < |t.procs| ::
          t'.procs[i] == t.procs[i].(status := t'.procs[i].status) && Later(t.procs[i].status, t'.procs[i].status))
    && (forall g | 0 <= g < |t.procs| && !LiveIn(t, g) :: !LiveIn(t', g))
  }

  lemma ApplyEvolves(t: Table, e: Event)
    requires Valid(t) && Enabled(t, e)
    ensures Evolves(t, Apply(t, e))
  {
  }

  lemma EvolvesTransitive(a: Table, b: Table, c: Table)
    requires Evolves(a, b) && Evolves(b, c)
    ensures Evolves(a, c)
  {
  }

  // A whole history of the table: its state at every instant.
  type History = nat -> Table

  ghost predicate StepAt(at: History, i: nat)
  {
    Next(at(i), at(i + 1))
  }

  ghost predicate Behaviour(at: History)
  {
    Valid(at(0)) && forall i: nat :: StepAt(at, i)
  }

  lemma {:induction false} BehaviourEvolves(at: History, i: nat, j: nat)
    requires Behaviour(at) && i <= j
    ensures Valid(at(i)) && Valid(at(j)) && Evolves(at(i), at(j))
    decreases j
  {
    if j == 0 {
    } else if i == j {
      BehaviourEvolves(at, j - 1, j - 1);
      StepKeeps(at, j - 1);
    } else {
      BehaviourEvolves(at, i, j - 1);
      StepKeeps(at, j - 1);
      EvolvesTransitive(at(i), at(j - 1), at(j));
    }
  }

  lemma StepKeeps(at: History, i: nat)
    requires Behaviour(at) && Valid(at(i))
    ensures Valid(at(i + 1)) && Evolves(at(i), at(i + 1))
  {
    assert StepAt(at, i);
    var e :| Enabled(at(i), e) && at(i + 1) == Apply(at(i), e);
    ApplyKeepsValid(at(i), e);
    ApplyEvolves(at(i), e);
  }
}
