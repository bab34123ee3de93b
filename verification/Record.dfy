/**
 The crash record of a run (internal/runner/lifecycle.go) and the PID file it is
 kept in (internal/daemon/daemon.go).

 The class below is proved against the functions that the launch protocol uses
 for the record, so what holds of every state of the protocol holds of this file.
 */
module Record {
  import opened Wrappers
  import opened World
  import opened Supervision

  datatype Content =
    | Absent
    | Garbled
    | PidRecord(pid: int, addr: string, startedAt: nat, host: Host, groups: Option<seq<Group>>)

  datatype WriteResult = Written | NoFile | NotReadable | NotOwner | WriteFailed

  class PidFile {
    var content: Content
    // How many replacements the system refused.
    ghost var failures: nat

    predicate OwnedBy(owner: int)
      reads this
    {
      content.PidRecord? && content.pid == owner
    }

    // Replaces the list of groups and keeps the rest, and only in a file that
    // still names its owner.
    method WriteGroups(owner: int, current: Host, groups: seq<Group>) returns (r: WriteResult)
      modifies this
      ensures r.Written? ==> old(content).PidRecord? && old(content).pid == owner
      ensures content == if r.Written? then old(content).(host := current, groups := Some(groups)) else old(content)
      ensures r.NoFile? <==> old(content).Absent?
      ensures r.NotReadable? <==> old(content).Garbled?
      ensures r.NotOwner? <==> old(content).PidRecord? && old(content).pid != owner
      ensures failures == old(failures) + if r.WriteFailed? then 1 else 0
    {
      match content
      case Absent => return NoFile;
      case Garbled => return NotReadable;
      case PidRecord(pid, _, _, _, _) =>
        if pid != owner { return NotOwner; }
        // The rename replaces the file whole or not at all.
        var failed: bool := *;
        if failed {
          failures := failures + 1;
          return WriteFailed;
        }
        content := content.(host := current, groups := Some(groups));
        r := Written;
    }
  }

  function Groups(es: seq<Entry>): (gs: seq<Group>)
    ensures |gs| == |es| && forall i | 0 <= i < |es| :: gs[i] == es[i].group
  {
    seq(|es|, i requires 0 <= i < |es| => es[i].group)
  }

  lemma WithoutSplits(es: seq<Entry>, i: nat, l: nat)
    requires i < |es|
    ensures Without(es[i..], l) == (if es[i].launch == l then [] else [es[i]]) + Without(es[i + 1..], l)
  {
    assert es[i..][1..] == es[i + 1..];
  }

  lemma WithoutNone(l: nat)
    ensures Without([], l) == []
  {
  }

  lemma FillSplits(es: seq<Entry>, i: nat, l: nat, g: Group)
    requires i < |es|
    ensures Fill(es[i..], l, g) == [if es[i].launch == l then Entry(l, g) else es[i]] + Fill(es[i + 1..], l, g)
  {
    assert es[i..][1..] == es[i + 1..];
  }

  // Nothing was removed exactly when the filtered list is as long as the list.
  lemma {:induction false} KeptAllIffSame(es: seq<Entry>, l: nat)
    ensures |Without(es, l)| <= |es| && (|Without(es, l)| == |es| ==> Without(es, l) == es)
  {
    if es != [] { KeptAllIffSame(es[1..], l); }
  }

  method Kept(es: seq<Entry>, l: nat) returns (kept: seq<Entry>)
    ensures kept == Without(es, l)
  {
    hide Without;
    WithoutNone(l);
    kept := [];
    for i := 0 to |es|
      invariant kept + Without(es[i..], l) == Without(es, l)
    {
      WithoutSplits(es, i, l);
      ghost var rest := Without(es[i + 1..], l);
      if es[i].launch != l {
        assert kept + ([es[i]] + rest) == (kept + [es[i]]) + rest;
        kept := kept + [es[i]];
      } else {
        assert [] + rest == rest;
      }
    }
  }

  method Filled(es: seq<Entry>, l: nat, g: Group) returns (filled: seq<Entry>)
    ensures filled == Fill(es, l, g)
  {
    filled := [];
    for i := 0 to |es|
      invariant filled + Fill(es[i..], l, g) == Fill(es, l, g)
    {
      FillSplits(es, i, l, g);
      filled := filled + [if es[i].launch == l then Entry(l, g) else es[i]];
    }
  }

  class RunRecord {
    const file: PidFile
    const owner: int
    const host: Host
    var on: bool
    var records: seq<Entry>
    // Which launch each entry of the file stands for.
    ghost var onDisk: seq<Entry>

    constructor (file: PidFile, owner: int, host: Host)
      ensures this.file == file && this.owner == owner && this.host == host && !on && records == [] && onDisk == []
    {
      this.file, this.owner, this.host := file, owner, host;
      on, records, onDisk := false, [], [];
    }

    ghost predicate Valid()
      reads this, file
    {
      on ==> file.content.PidRecord? && file.content.pid == owner ==> file.content.groups == Some(Groups(onDisk))
    }

    ghost function Value(): Book
      reads this
    {
      Book(on, records, onDisk)
    }

    method Write() returns (r: WriteResult)
      modifies this`onDisk, file
      ensures onDisk == if r.Written? then records else old(onDisk)
      ensures r.Written? ==> Valid()
      ensures !r.Written? ==> file.content == old(file.content)
      // A file of this owner is written unless the system refuses.
      ensures old(file.failures) <= file.failures
      ensures r.Written? <==> old(file.OwnedBy(owner)) && file.failures == old(file.failures)
      ensures r.NoFile? || r.NotOwner? <==>
        old(file.content).Absent? || (old(file.content).PidRecord? && old(file.content).pid != owner)
    {
      var groups := [];
      for i := 0 to |records|
        invariant groups == Groups(records[..i])
      {
        groups := groups + [records[i].group];
      }
      assert records[..|records|] == records;
      r := file.WriteGroups(owner, host, groups);
      if r.Written? { onDisk := records; }
    }

    // Recording is on from here only if it is wanted and an empty list could be stored.
    method Begin(wanted: bool)
      modifies this, file
      ensures Valid() && records == []
      ensures on ==> onDisk == []
      ensures on <==> wanted && old(file.OwnedBy(owner)) && file.failures == old(file.failures)
    {
      records, on := [], wanted;
      if on {
        var r := Write();
        if !r.Written? { on := false; }
      }
    }

    // Adds an entry before the launch it stands for. Refused leaves the record as
    // it was and the launch must not proceed; a file that is gone or another
    // daemon's turns recording off and the launch goes ahead unrecorded.
    method Pending(l: nat, name: string) returns (w: Supervision.Write)
      requires Valid()
      modifies this, file
      ensures Valid()
      ensures old(on) && w.Wrote? ==>
        Value() == Persist(old(Value()).(records := old(records) + [Entry(l, Group(name, 0, 0))]), true)
      ensures old(on) && w.Lost? ==> Value() == old(Value()).(on := false, records := [])
      ensures w.Lost? ==> !(old(file.content).PidRecord? && old(file.content).pid == owner)
      ensures !old(on) || w.Failed? ==> Value() == old(Value())
      ensures w.Wrote? <==> !old(on) || (old(file.OwnedBy(owner)) && file.failures == old(file.failures))
      ensures w.Failed? ==> old(file.content).Garbled? || old(file.failures) < file.failures
    {
      if !on { return Wrote; }
      var before := records;
      records := records + [Entry(l, Group(name, 0, 0))];
      var r := Write();
      if r.Written? { return Wrote; }
      records := before;
      if r.NoFile? || r.NotOwner? {
        on, records := false, [];
        return Lost;
      }
      w := Failed;
    }

    // Gives the launch's entry its numbers in memory, and on disk if that can be written.
    method FillIn(l: nat, g: Group) returns (ghost wrote: bool)
      requires Valid()
      modifies this, file
      ensures Valid() && Value() == FillRecord(old(Value()), l, g, wrote)
      ensures wrote <==> old(on) && old(file.OwnedBy(owner)) && file.failures == old(file.failures)
    {
      wrote := false;
      if !on { return; }
      var filled := Filled(records, l, g);
      records := filled;
      var r := Write();
      wrote := r.Written?;
    }

    // A launch that never started or is proven gone needs no entry. If the change
    // cannot be stored, disk names more than it has to.
    method Drop(l: nat) returns (ghost wrote: bool)
      requires Valid()
      modifies this, file
      ensures Valid() && Value() == DropRecord(old(Value()), l, wrote)
      ensures wrote <==>
        && old(on) && (exists e :: e in old(records) && e.launch == l)
        && old(file.OwnedBy(owner)) && file.failures == old(file.failures)
    {
      wrote := false;
      if !on { return; }
      var kept := Kept(records, l);
      KeptAllIffSame(records, l);
      WithoutKeeps(records, l);
      if |kept| == |records| { return; }
      records := kept;
      var r := Write();
      wrote := r.Written?;
    }
  }
}
