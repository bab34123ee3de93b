/**
 Taking over after a crash: the record a run leaves behind, read by the next
 command (internal/runner/recover_unix.go, cmd/proc-compose/helpers.go).

 The run may crash at any step. Whatever the process table does afterwards, once
 the next command accepts the record no group the run launched has a live member.
 */
module Takeover {
  import opened Wrappers
  import opened Kernel
  import opened World
  import Recovery
  import opened Supervision
  import opened Safety
  import opened Runs
  import Record

  // The run crashed in state s, and its host's history goes on from there, or
  // the host was rebooted and `at` is the history of another boot.
  ghost predicate CrashedIn(s: Sys, at: History, crash: nat)
  {
    at(0).boot == s.table.boot ==> at(crash) == s.table
  }

  ghost predicate Stamped(recorded: Host, s: Sys)
  {
    recorded.bootID == "" || recorded.bootID == s.table.boot
  }

  // One true entry that was cleared clears the launch it stands for.
  lemma ClearedEntry(s: Sys, e: Entry, at: History, crash: nat, base: nat, now: nat, recorded: Host)
    requires Behaviour(at) && crash <= base <= now && CrashedIn(s, at, crash) && Stamped(recorded, s)
    requires TrueEntry(s.table, s.launches, e) && s.launches[e.launch].HasLeader()
    requires Recovery.Cleared(at, base, now, recorded, e.group)
    ensures !LiveGroup(at(now), GroupRef(s.table.boot, s.launches[e.launch].leader))
  {
    BehaviourEvolves(at, 0, now);
    if at(now).boot == s.table.boot {
      BehaviourEvolves(at, crash, base);
      var leader := s.launches[e.launch].leader;
      assert Recovery.RecordedAs(at(base), e.group, leader);
    }
  }

  // A run that crashed in any state with recording on, whose record was then
  // cleared entry by entry, has no live process left in any of its groups.
  lemma ClearedRecordMeansEmpty(run: seq<Sys>, i: nat, at: History, crash: nat, base: nat, now: nat, recorded: Host)
    requires Run(run) && i < |run| && run[i].book.on
    requires Behaviour(at) && crash <= base <= now && CrashedIn(run[i], at, crash) && Stamped(recorded, run[i])
    requires forall e | e in run[i].book.disk :: Recovery.Cleared(at, base, now, recorded, e.group)
    ensures forall l | 0 <= l < |run[i].launches| && run[i].launches[l].HasLeader() ::
      !LiveGroup(at(now), GroupRef(run[i].table.boot, run[i].launches[l].leader))
  {
    var s := run[i];
    forall l | 0 <= l < |s.launches| && s.launches[l].HasLeader()
      ensures !LiveGroup(at(now), GroupRef(s.table.boot, s.launches[l].leader))
    {
      if s.launches[l].proven {
        ProvenStaysEmpty(run, i, l);
        RunKeeps(run, i);
        assert Identity(s.table, s.launches[l]);
        BehaviourEvolves(at, 0, now);
        BehaviourEvolves(at, crash, now);
      } else {
        DiskIsSuperset(run, i, l);
        var e :| e in s.book.disk && e.launch == l && TrueEntry(s.table, s.launches, e);
        ClearedEntry(s, e, at, crash, base, now, recorded);
      }
    }
  }

  // A crash between recording a launch and its start leaves an entry that only a
  // reboot clears: the launch may have started.
  lemma CrashWhileStartingRefuses(run: seq<Sys>, i: nat, l: nat, at: History, base: nat, now: nat, recorded: Host)
    requires Run(run) && i < |run| && run[i].book.on && l < |run[i].launches| && run[i].launches[l].stage.Pending?
    requires forall e | e in run[i].book.disk :: Recovery.Cleared(at, base, now, recorded, e.group)
    ensures recorded.bootID != "" && recorded.bootID != at(now).boot
  {
    RunKeeps(run, i);
    assert StageRules(run[i].launches[l]);
    DiskIsSuperset(run, i, l);
    var e :| e in run[i].book.disk && e.launch == l && TrueEntry(run[i].table, run[i].launches, e);
  }

  // The next command's check, on the PID file the crashed run left.
  method AcquireRun(w: World, file: Record.PidFile, daemonAlive: bool, ghost run: seq<Sys>, ghost i: nat,
                    ghost crash: nat)
    returns (r: Recovery.Assessment)
    requires w.Valid() && Run(run) && i < |run| && run[i].book.on
    requires crash <= w.now && CrashedIn(run[i], w.at, crash)
    requires file.content.PidRecord? && Stamped(file.content.host, run[i])
    requires file.content.groups == Some(Record.Groups(run[i].book.disk))
    modifies w`now, w`delivered, w`attempted, file`content
    ensures w.Valid() && old(w.now) <= w.now && w.delivered == old(w.delivered)
    ensures r.Accepted? ==> forall l | 0 <= l < |run[i].launches| && run[i].launches[l].HasLeader() ::
      !LiveGroup(w.at(w.now), GroupRef(run[i].table.boot, run[i].launches[l].leader))
    // A record with nobody left is accepted; a refused one is left for a later stop.
    ensures !daemonAlive && Recovery.Deserted(w, old(w.now), w.now, old(file.content).host, Record.Groups(run[i].book.disk)) ==>
      r == Recovery.Accepted(true)
    ensures file.content == if r == Recovery.Accepted(true) then Record.Absent else old(file.content)
  {
    ghost var base := w.now;
    var read := Recovery.Record(file.content.host, file.content.groups);
    r := Recovery.AssessCrashedRun(w, true, daemonAlive, read);
    if r.Accepted? {
      ghost var disk := run[i].book.disk;
      assert forall e | e in disk :: Recovery.Cleared(w.at, base, w.now, read.host, e.group) by {
        forall e | e in disk
          ensures Recovery.Cleared(w.at, base, w.now, read.host, e.group)
        {
          var k :| 0 <= k < |disk| && disk[k] == e;
          assert Record.Groups(disk)[k] in read.groups.value;
        }
      }
      ClearedRecordMeansEmpty(run, i, w.at, crash, base, w.now, read.host);
      if r.stale { file.content := Record.Absent; }
    }
  }
}
