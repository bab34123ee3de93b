/**
 The rotating log writer (internal/logrotate/logrotate.go).

 The files of one log are slots ordered by age: the live file, the staged file,
 then the rotated copies. What a reader of the log retains is their contents,
 oldest first. Every system call that changes a slot is a method of Disk that
 keeps the log sound, so a crash between any two of them leaves a sound log, and
 New asks for no more than that.
 */
module LogRotate {
  import opened Bytes

  type Slot = nat

  const LIVE: Slot := 0
  const STAGING: Slot := 1

  function Copy(i: nat): Slot { i + 1 }

  // Slots name inodes; an open file keeps its inode whatever its name becomes.
  datatype Image = Image(names: map<Slot, nat>, data: map<nat, seq<Byte>>)
  {
    ghost predicate Valid()
    {
      && (forall s | s in names :: names[s] in data)
      && (forall s, t | s in names && t in names && names[s] == names[t] :: s == t)
    }

    ghost function At(s: Slot): seq<Byte>
      requires Valid()
    {
      if s in names then data[names[s]] else []
    }

    // The contents of the slots younger than k, oldest first.
    ghost function Younger(k: nat): seq<Byte>
      requires Valid()
    {
      if k == 0 then [] else At(k - 1) + Younger(k - 1)
    }

    // No slot from lo up to, not including, hi is taken.
    predicate Free(lo: Slot, hi: Slot)
    {
      forall s | lo <= s < hi :: s !in names
    }
  }

  // ── what each change of a slot does to the log ──────────────────────────────

  function Move(m: Image, a: Slot, b: Slot): Image
    requires a in m.names
  {
    m.(names := (m.names - {a})[b := m.names[a]])
  }

  ghost predicate Movable(m: Image, a: Slot, b: Slot)
  {
    a in m.names && if a < b then m.Free(a + 1, b + 1) else b < a && m.Free(b, a)
  }

  lemma {:induction false} FreeAddsNothing(m: Image, lo: Slot, hi: Slot)
    requires m.Valid() && lo <= hi && m.Free(lo, hi)
    ensures m.Younger(hi) == m.Younger(lo)
  {
    if lo < hi { FreeAddsNothing(m, lo, hi - 1); }
  }

  lemma {:induction false} SameBelow(m: Image, m': Image, k: nat)
    requires m.Valid() && m'.Valid() && forall s | 0 <= s < k :: m'.At(s) == m.At(s)
    ensures m'.Younger(k) == m.Younger(k)
  {
    if k > 0 { SameBelow(m, m', k - 1); }
  }

  lemma MoveValid(m: Image, a: Slot, b: Slot)
    requires m.Valid() && Movable(m, a, b)
    ensures Move(m, a, b).Valid()
    ensures forall s | s != a && s != b :: Move(m, a, b).At(s) == m.At(s)
    ensures Move(m, a, b).At(b) == m.At(a) && Move(m, a, b).At(a) == [] && m.At(b) == []
  {
  }

  lemma MoveOlder(m: Image, a: Slot, b: Slot)
    requires m.Valid() && Movable(m, a, b) && a < b
    ensures Move(m, a, b).Valid() && Move(m, a, b).Younger(b + 1) == m.Younger(b + 1)
  {
    var m' := Move(m, a, b);
    MoveValid(m, a, b);
    SameBelow(m, m', a);
    FreeAddsNothing(m, a + 1, b);
    FreeAddsNothing(m', a, b);
  }

  lemma MoveYounger(m: Image, a: Slot, b: Slot)
    requires m.Valid() && Movable(m, a, b) && b < a
    ensures Move(m, a, b).Valid() && Move(m, a, b).Younger(a + 1) == m.Younger(a + 1)
  {
    var m' := Move(m, a, b);
    MoveValid(m, a, b);
    SameBelow(m, m', b);
    FreeAddsNothing(m, b, a);
    FreeAddsNothing(m', b + 1, a);
  }

  // A file moved over free slots only keeps its place among the contents.
  lemma {:induction false} MoveKeeps(m: Image, a: Slot, b: Slot, k: nat)
    requires m.Valid() && Movable(m, a, b) && a < k && b < k
    ensures Move(m, a, b).Valid() && Move(m, a, b).Younger(k) == m.Younger(k)
  {
    MoveValid(m, a, b);
    if k - 1 > a && k - 1 > b {
      MoveKeeps(m, a, b, k - 1);
    } else if a < b {
      MoveOlder(m, a, b);
    } else {
      MoveYounger(m, a, b);
    }
  }

  function Grow(m: Image, file: nat, bytes: seq<Byte>): Image
    requires file in m.data
  {
    m.(data := m.data[file := m.data[file] + bytes])
  }

  // Bytes appended to the youngest file are appended to the log.
  lemma {:induction false} GrowAppends(m: Image, s: Slot, bytes: seq<Byte>, k: nat)
    requires m.Valid() && s in m.names && m.Free(0, s) && s < k
    ensures Grow(m, m.names[s], bytes).Valid()
    ensures Grow(m, m.names[s], bytes).Younger(k) == m.Younger(k) + bytes
  {
    var m' := Grow(m, m.names[s], bytes);
    if k - 1 > s {
      GrowAppends(m, s, bytes, k - 1);
    } else {
      FreeAddsNothing(m, 0, s);
      FreeAddsNothing(m', 0, s);
    }
  }

  lemma GrowOrphan(m: Image, file: nat, bytes: seq<Byte>, k: nat)
    requires m.Valid() && file in m.data && file !in m.names.Values
    ensures Grow(m, file, bytes).Valid() && Grow(m, file, bytes).Younger(k) == m.Younger(k)
  {
    SameBelow(m, Grow(m, file, bytes), k);
  }

  lemma AppendKeeps(m: Image, file: nat, bytes: seq<Byte>, k: nat)
    requires m.Valid() && file in m.data
    requires forall s | s in m.names && m.names[s] == file :: m.Free(0, s) && s < k
    ensures var m' := Grow(m, file, bytes);
      m'.Valid() && m'.Younger(k) == m.Younger(k) + if file in m.names.Values then bytes else []
  {
    if file in m.names.Values {
      var s :| s in m.names && m.names[s] == file;
      GrowAppends(m, s, bytes, k);
    } else {
      GrowOrphan(m, file, bytes, k);
    }
  }

  // ── the disk ────────────────────────────────────────────────────────────────

  ghost predicate HasFreeCopy(m: Image, slots: nat)
  {
    exists i: nat :: 1 <= i <= slots && Copy(i) !in m.names
  }

  datatype Change = Done | NotExist | Failed

  class Disk {
    // How many rotated copies are kept.
    const slots: nat
    var image: Image
    // The next inode to hand out.
    var next: nat
    // Whether the process was killed: no call of it has an effect from then on.
    var crashed: bool
    // How many calls failed, or were made by a process that was killed.
    ghost var faults: nat
    // Everything written to the log, and the contents of the copies dropped from
    // it, in order.
    ghost var log: seq<Byte>
    ghost var dropped: seq<seq<Byte>>

    ghost function Retained(): seq<Byte>
      requires image.Valid()
      reads this
    {
      image.Younger(slots + 2)
    }

    // The retained contents are what was written less whole dropped copies, and
    // the staged file stands for the live one, never beside it.
    ghost predicate Sound()
      reads this
    {
      && slots >= 1 && image.Valid() && !(LIVE in image.names && STAGING in image.names)
      && (forall s | s in image.names :: s < slots + 2) && (forall f | f in image.data :: f < next)
      && log == Concat(dropped) + Retained()
    }

    // The process may be killed at any moment, and stays so.
    method Halts() returns (dead: bool)
      modifies this`crashed, this`faults
      ensures dead == crashed && (old(crashed) ==> crashed) && (old(Sound()) ==> Sound())
      ensures faults == old(faults) + if dead then 1 else 0
    {
      var killed: bool := *;
      crashed := crashed || killed;
      dead := crashed;
      if dead { faults := faults + 1; }
    }

    // A call may fail for a reason of its own.
    method Fails() returns (failed: bool)
      modifies this`crashed, this`faults
      ensures (old(crashed) ==> crashed && failed) && (old(Sound()) ==> Sound())
      ensures old(faults) <= faults && (failed ==> old(faults) < faults)
    {
      failed := Halts();
      var refused: bool := *;
      if refused {
        failed := true;
        faults := faults + 1;
      }
    }

    // The machine starts a new process.
    method Boot()
      modifies this`crashed
      ensures !crashed
    {
      crashed := false;
    }

    method Lstat(s: Slot) returns (exists': bool)
      ensures exists' <==> s in image.names
    {
      exists' := s in image.names;
    }

    // The first free copy slot, or 0 when every one is taken.
    method FirstFree() returns (free: nat)
      ensures free <= slots && (free != 0 ==> Copy(free) !in image.names)
      ensures forall j | 1 <= j <= slots && (free == 0 || j < free) :: Copy(j) in image.names
    {
      free := 0;
      for i := 1 to slots + 1
        invariant forall j | 1 <= j < i :: Copy(j) in image.names
      {
        var taken := Lstat(Copy(i));
        if !taken { return i; }
      }
    }

    // Moves the copies below a free slot up by one, the oldest first.
    method MoveUp(free: nat) returns (ok: bool)
      requires Sound() && LIVE !in image.names && 1 <= free <= slots && Copy(free) !in image.names
      requires forall j | 1 <= j < free :: Copy(j) in image.names
      modifies this`image, this`crashed, this`faults
      ensures Sound() && image.data == old(image.data) && LIVE !in image.names
      ensures STAGING in image.names <==> STAGING in old(image).names
      ensures STAGING in image.names ==> image.names[STAGING] == old(image).names[STAGING]
      ensures if ok then Copy(1) !in image.names else HasFreeCopy(image, slots)
      ensures old(faults) <= faults && (!ok ==> old(faults) < faults)
    {
      for i := free downto 1
        invariant Sound() && image.data == old(image.data) && LIVE !in image.names
        invariant STAGING in image.names <==> STAGING in old(image).names
        invariant STAGING in image.names ==> image.names[STAGING] == old(image).names[STAGING]
        invariant old(faults) <= faults
        invariant 1 <= i <= free && Copy(i) !in image.names && forall j | 1 <= j < i :: Copy(j) in image.names
      {
        var c := Rename(Copy(i), Copy(i + 1));
        if !c.Done? { return false; }
      }
      ok := true;
    }

    // Callers never rename onto a file that is there, nor past one.
    method Rename(a: Slot, b: Slot) returns (r: Change)
      requires Sound() && b < slots + 2 && (a in image.names ==> Movable(image, a, b))
      requires b == STAGING ==> a == LIVE
      requires b == LIVE ==> STAGING !in image.names || a == STAGING
      modifies this`image, this`crashed, this`faults
      ensures Sound()
      ensures r.NotExist? <==> a !in old(image).names
      ensures image == if r.Done? then Move(old(image), a, b) else old(image)
      ensures old(crashed) ==> crashed && !r.Done?
      ensures old(faults) <= faults && (r.Failed? ==> old(faults) < faults)
    {
      if a !in image.names { return NotExist; }
      var failed := Fails();
      if failed { return Failed; }
      MoveKeeps(image, a, b, slots + 2);
      image := Move(image, a, b);
      var dead := Halts();
      r := Done;
    }

    // Drops the oldest copy.
    method RemoveOldest() returns (r: Change)
      requires Sound() && Copy(slots) in image.names
      modifies this`image, this`dropped, this`crashed, this`faults
      ensures Sound() && !r.NotExist?
      ensures r.Failed? ==> image == old(image) && dropped == old(dropped)
      ensures r.Done? ==> dropped == old(dropped) + [old(image).At(Copy(slots))]
      ensures r.Done? ==> image == old(image).(names := old(image).names - {Copy(slots)})
      ensures old(crashed) ==> crashed && !r.Done?
      ensures old(faults) <= faults && (r.Failed? ==> old(faults) < faults)
    {
      var failed := Fails();
      if failed { return Failed; }
      Unlink();
      hide Sound;
      var dead := Halts();
      r := Done;
    }

    method Unlink()
      requires Sound() && Copy(slots) in image.names
      modifies this`image, this`dropped
      ensures Sound() && dropped == old(dropped) + [old(image).At(Copy(slots))]
      ensures image == old(image).(names := old(image).names - {Copy(slots)})
    {
      hide Image.Younger, Image.Valid, Image.At, Concat;
      ghost var oldest := image.At(Copy(slots));
      ghost var rest := OldestGoes(image, slots);
      ConcatSnoc(dropped, oldest);
      assert Concat(dropped) + (oldest + rest) == (Concat(dropped) + oldest) + rest;
      dropped := dropped + [oldest];
      image := image.(names := image.names - {Copy(slots)});
    }

    // Opens the live file for appending, creating it empty when it is absent.
    method OpenLive() returns (ok: bool, file: nat)
      requires Sound() && STAGING !in image.names
      modifies this`image, this`next, this`crashed, this`faults
      ensures Sound()
      ensures !ok ==> image == old(image)
      ensures ok ==> LIVE in image.names && image.names[LIVE] == file
      ensures ok && LIVE in old(image).names ==> image == old(image)
      ensures ok && LIVE !in old(image).names ==>
        && file !in old(image).data && image == Image(old(image).names[LIVE := file], old(image).data[file := []])
      ensures old(crashed) ==> crashed && !ok
      ensures old(faults) <= faults && (!ok ==> old(faults) < faults)
    {
      ok, file := false, 0;
      var failed := Fails();
      if failed { return; }
      if LIVE in image.names {
        return true, image.names[LIVE];
      }
      file, next := next, next + 1;
      ghost var before := image;
      image := Image(image.names[LIVE := file], image.data[file := []]);
      SameBelow(before, image, slots + 2);
      var dead := Halts();
      ok := true;
    }

    // Appends a prefix of the bytes to an open file. The bytes are in the log only
    // while the file is.
    method Append(file: nat, bytes: seq<Byte>) returns (n: nat, failed: bool)
      requires Sound() && file in image.data
      requires forall s | s in image.names && image.names[s] == file :: image.Free(0, s)
      modifies this`image, this`log, this`crashed, this`faults
      ensures Sound() && n <= |bytes| && (n < |bytes| ==> failed)
      ensures image == Grow(old(image), file, bytes[..n])
      ensures log == if exists s :: s in old(image).names && old(image).names[s] == file then old(log) + bytes[..n]
                     else old(log)
      ensures old(crashed) ==> crashed && n == 0
      ensures old(faults) <= faults && (failed ==> old(faults) < faults)
    {
      failed := Fails();
      var part :| 0 <= part <= |bytes|;
      n := if !failed then |bytes| else if crashed then 0 else part;
      Extend(file, bytes[..n]);
      assert file in old(image).names.Values <==> exists s :: s in old(image).names && old(image).names[s] == file;
      hide Sound;
      var dead := Halts();
    }

    method Extend(file: nat, bytes: seq<Byte>)
      requires Sound() && file in image.data
      requires forall s | s in image.names && image.names[s] == file :: image.Free(0, s)
      modifies this`image, this`log
      ensures Sound() && image == Grow(old(image), file, bytes)
      ensures log == if file in old(image).names.Values then old(log) + bytes else old(log)
    {
      hide Image.Valid, Image.Younger, Image.Free, Concat;
      AppendKeeps(image, file, bytes, slots + 2);
      ghost var added := if file in image.names.Values then bytes else [];
      assert log + added == Concat(dropped) + (Retained() + added);
      log := log + added;
      image := Grow(image, file, bytes);
    }

    // Another process removes the live file; its bytes leave the log.
    method RemovedByOther()
      requires Sound() && LIVE in image.names
      modifies this`image, this`log
      ensures Sound() && image == old(image).(names := old(image).names - {LIVE})
      ensures old(log) == log + old(image).At(LIVE)
    {
      ghost var m' := image.(names := image.names - {LIVE});
      LiveIsLast(image, m', slots + 2);
      log := log[..|log| - |image.At(LIVE)|];
      image := image.(names := image.names - {LIVE});
    }
  }

  // The oldest copy comes first in the log.
  lemma OldestGoes(m: Image, slots: nat) returns (rest: seq<Byte>)
    requires m.Valid()
    ensures var m' := m.(names := m.names - {Copy(slots)});
      m'.Valid() && m.Younger(slots + 2) == m.At(Copy(slots)) + rest && m'.Younger(slots + 2) == rest
  {
    var m' := m.(names := m.names - {Copy(slots)});
    rest := m.Younger(slots + 1);
    SameBelow(m, m', slots + 1);
    assert m'.At(slots + 1) == [] && [] + m'.Younger(slots + 1) == rest;
  }

  lemma {:induction false} LiveIsLast(m: Image, m': Image, k: nat)
    requires m.Valid() && m'.Valid() && k > 0 && m'.At(LIVE) == []
    requires forall s | 0 < s < k :: m'.At(s) == m.At(s)
    ensures m.Younger(k) == m'.Younger(k) + m.At(LIVE)
  {
    if k > 1 { LiveIsLast(m, m', k - 1); }
  }

  // ── the writer ──────────────────────────────────────────────────────────────

  datatype Rotation =
    | Rotated
    | Recreated      // the live file had been removed by another process
    | RestoreFailed | StageFailed | RecreateFailed | ShiftFailed | RenameFailed | ReopenFailed
  {
    predicate Installed() { Rotated? || Recreated? }
  }

  // The open file is at slot s, the youngest taken.
  ghost predicate OpenAt(m: Image, file: nat, s: Slot)
  {
    s in m.names && m.names[s] == file && m.Free(0, s)
  }

  class Writer {
    const disk: Disk
    const maxSize: int
    var file: nat
    var written: nat
    // The slot the open file was stranded in, LIVE unless both a rotation and its
    // rollback failed; a file deleted from outside counts as LIVE.
    var displaced: Slot
    // How many copies were dropped since the last new live file.
    ghost var drops: nat

    ghost predicate Placed()
      reads this, disk
    {
      if displaced == LIVE then
        STAGING !in disk.image.names
        && if LIVE in disk.image.names then disk.image.names[LIVE] == file else file !in disk.image.names.Values
      else displaced in {STAGING, Copy(1)} && OpenAt(disk.image, file, displaced)
    }

    ghost predicate Thrifty()
      reads this, disk
    {
      drops == 0 || (drops == 1 && (displaced == Copy(1) || HasFreeCopy(disk.image, disk.slots)))
    }

    ghost predicate Valid()
      reads this, disk
    {
      && disk.Sound() && file in disk.image.data && written == |disk.image.data[file]|
      && Placed() && Thrifty()
    }

    // False only after another process removed the live file.
    ghost predicate InLog()
      reads this, disk
    {
      exists s :: s in disk.image.names && disk.image.names[s] == file
    }

    constructor (disk: Disk, maxSize: int, file: nat, written: nat)
      requires disk.Sound() && OpenAt(disk.image, file, LIVE) && STAGING !in disk.image.names
      requires file in disk.image.data && written == |disk.image.data[file]|
      ensures Valid() && InLog() && this.disk == disk && this.maxSize == maxSize && this.file == file && drops == 0
    {
      this.disk, this.maxSize, this.file, this.written := disk, maxSize, file, written;
      displaced, drops := LIVE, 0;
    }

    // Appends to the log and rotates when the live file has grown past the limit.
    // Whatever fails, no byte written leaves the log, and the log loses no more
    // than whole copies, one at most until a new live file is installed.
    method Write(p: seq<Byte>) returns (n: nat, failed: bool, rotation: Rotation)
      requires Valid()
      modifies this, disk
      ensures Valid() && n <= |p| && (n < |p| ==> failed)
      ensures old(InLog()) ==> InLog()
      ensures disk.log == if old(InLog()) then old(disk.log) + p[..n] else old(disk.log)
      ensures old(disk.dropped) <= disk.dropped && old(drops) + |disk.dropped| - |old(disk.dropped)| <= 1
      ensures disk.dropped != old(disk.dropped) ==> !HasFreeCopy(old(disk.image), disk.slots)
      // Below its limit the file is only appended to.
      ensures old(disk.faults) <= disk.faults && (disk.faults == old(disk.faults) ==> n == |p|)
      ensures old(written) + n < maxSize ==>
        && file == old(file) && displaced == old(displaced) && disk.dropped == old(disk.dropped)
        && disk.image == Grow(old(disk.image), file, p[..n])
      // Once the limit is reached the file is rotated away, unless a call fails.
      ensures old(written) + n >= maxSize && disk.faults == old(disk.faults) ==>
        && file != old(file) && written == 0 && displaced == LIVE
        && (old(InLog()) ==> !failed && Copy(1) in disk.image.names && disk.image.names[Copy(1)] == old(file))
    {
      n, failed := disk.Append(file, p);
      written := written + n;
      rotation := Rotated;
      if written >= maxSize {
        rotation := Rotate();
        if !rotation.Rotated? { failed := true; }
      }
    }

    // A failure leaves the writer appending to the same file, in the log.
    method Rotate() returns (r: Rotation)
      requires Valid()
      modifies this, disk
      ensures Valid() && disk.log == old(disk.log) && (old(InLog()) ==> InLog())
      ensures r.Installed() <==> file != old(file)
      ensures r.Installed() ==> written == 0 && displaced == LIVE && LIVE in disk.image.names && drops == 0
      ensures r.Rotated? ==> Copy(1) in disk.image.names && disk.image.names[Copy(1)] == old(file)
      ensures old(disk.faults) <= disk.faults
      ensures disk.faults == old(disk.faults) ==> if old(InLog()) then r.Rotated? else r.Recreated?
      ensures !r.Installed() ==> written == old(written) && drops == old(drops) + |disk.dropped| - |old(disk.dropped)|
      ensures old(disk.dropped) <= disk.dropped && old(drops) + |disk.dropped| - |old(disk.dropped)| <= 1
      ensures disk.dropped != old(disk.dropped) ==> !HasFreeCopy(old(disk.image), disk.slots)
      ensures disk.image.data == if r.Installed() then old(disk.image.data)[file := []] else old(disk.image.data)
    {
      if displaced != LIVE {
        var restored := Restore();
        if !restored { return RestoreFailed; }
        assert HasFreeCopy(old(disk.image), disk.slots) ==> HasFreeCopy(disk.image, disk.slots);
      }
      r := Stage();
    }

    // A rotation of a file at home: refused at once if the file cannot be staged.
    method Stage() returns (r: Rotation)
      requires Valid() && displaced == LIVE
      modifies this, disk
      ensures Valid() && disk.log == old(disk.log) && (old(InLog()) ==> InLog())
      ensures r.Installed() <==> file != old(file)
      ensures r.Installed() ==> written == 0 && displaced == LIVE && LIVE in disk.image.names && drops == 0
      ensures r.Rotated? ==> Copy(1) in disk.image.names && disk.image.names[Copy(1)] == old(file)
      ensures old(disk.faults) <= disk.faults
      ensures disk.faults == old(disk.faults) ==> if old(InLog()) then r.Rotated? else r.Recreated?
      ensures !r.Installed() ==> written == old(written) && drops == old(drops) + |disk.dropped| - |old(disk.dropped)|
      ensures old(disk.dropped) <= disk.dropped && old(drops) + |disk.dropped| - |old(disk.dropped)| <= 1
      ensures disk.dropped != old(disk.dropped) ==> !HasFreeCopy(old(disk.image), disk.slots)
      ensures disk.image.data == if r.Installed() then old(disk.image.data)[file := []] else old(disk.image.data)
    {
      var c := disk.Rename(LIVE, STAGING);
      if c.NotExist? {
        r := Recreate();
        return;
      }
      if c.Failed? { return StageFailed; }
      r := Complete();
    }

    // Puts back the file a failed rotation displaced.
    method Restore() returns (ok: bool)
      requires Valid() && displaced != LIVE
      modifies this`displaced, disk`image, disk`crashed, disk`faults
      ensures Valid() && InLog() && disk.image.data == old(disk.image.data)
      ensures if ok then displaced == LIVE && LIVE in disk.image.names else displaced == old(displaced)
      ensures disk.image.names == if ok then Move(old(disk.image), old(displaced), LIVE).names else old(disk.image.names)
      ensures old(disk.faults) <= disk.faults && (!ok ==> old(disk.faults) < disk.faults)
    {
      var c := disk.Rename(displaced, LIVE);
      ok := c.Done?;
      if ok { displaced := LIVE; }
    }

    // The rest of a rotation, once the live file is staged.
    method Complete() returns (r: Rotation)
      requires disk.Sound() && OpenAt(disk.image, file, STAGING) && displaced == LIVE
      requires file in disk.image.data && written == |disk.image.data[file]|
      requires drops == 0 || (drops == 1 && HasFreeCopy(disk.image, disk.slots))
      modifies this, disk`image, disk`dropped, disk`next, disk`crashed, disk`faults
      ensures Valid() && InLog() && (r.Rotated? || (!r.Installed() && file == old(file)))
      ensures r.Rotated? ==> file != old(file) && written == 0 && displaced == LIVE && LIVE in disk.image.names && drops == 0
      ensures r.Rotated? ==> Copy(1) in disk.image.names && disk.image.names[Copy(1)] == old(file)
      ensures old(disk.faults) <= disk.faults && (!r.Rotated? ==> old(disk.faults) < disk.faults)
      ensures !r.Rotated? ==> written == old(written) && drops == old(drops) + |disk.dropped| - |old(disk.dropped)|
      ensures old(disk.dropped) <= disk.dropped && old(drops) + |disk.dropped| - |old(disk.dropped)| <= 1
      ensures disk.dropped != old(disk.dropped) ==> !HasFreeCopy(old(disk.image), disk.slots)
      ensures disk.image.data == if r.Rotated? then old(disk.image.data)[file := []] else old(disk.image.data)
    {
      hide Image.Younger, Concat;
      var shifted := Shift();
      if !shifted {
        Rollback(STAGING);
        return ShiftFailed;
      }
      var c := disk.Rename(STAGING, Copy(1));
      if !c.Done? {
        Rollback(STAGING);
        return RenameFailed;
      }
      var ok, f := disk.OpenLive();
      if !ok {
        Rollback(Copy(1));
        return ReopenFailed;
      }
      Install(f);
      r := Rotated;
    }

    // Frees the slot of the newest copy by moving the copies up to the first free
    // slot, dropping the oldest only when every slot is taken.
    method Shift() returns (ok: bool)
      requires disk.Sound() && STAGING in disk.image.names && LIVE !in disk.image.names
      requires drops == 0 || (drops == 1 && HasFreeCopy(disk.image, disk.slots))
      modifies this`drops, disk`image, disk`dropped, disk`crashed, disk`faults
      ensures disk.Sound() && disk.log == old(disk.log) && disk.image.data == old(disk.image.data)
      ensures LIVE !in disk.image.names && STAGING in disk.image.names
      ensures disk.image.names[STAGING] == old(disk.image.names)[STAGING]
      ensures ok ==> Copy(1) !in disk.image.names
      ensures drops == old(drops) + |disk.dropped| - |old(disk.dropped)| <= 1 && old(disk.dropped) <= disk.dropped
      ensures drops == 1 ==> HasFreeCopy(disk.image, disk.slots)
      ensures disk.dropped != old(disk.dropped) ==> !HasFreeCopy(old(disk.image), disk.slots)
      ensures old(disk.faults) <= disk.faults && (!ok ==> old(disk.faults) < disk.faults)
    {
      var slots := disk.slots;
      var free := disk.FirstFree();
      if free == 0 {
        assert drops == 0;
        free := slots;
        assert Copy(slots) in disk.image.names;
        var c := disk.RemoveOldest();
        if !c.Done? { return false; }
        drops := 1;
      }
      ok := disk.MoveUp(free);
    }

    // Puts the open file back at the live path, or remembers where it stayed.
    method Rollback(s: Slot)
      requires disk.Sound() && s in {STAGING, Copy(1)} && OpenAt(disk.image, file, s) && displaced == LIVE
      requires file in disk.image.data && written == |disk.image.data[file]|
      requires drops == 0 || (drops == 1 && (s == Copy(1) || HasFreeCopy(disk.image, disk.slots)))
      modifies this`displaced, disk`image, disk`crashed, disk`faults
      ensures Valid() && InLog() && disk.image.data == old(disk.image.data)
      ensures old(disk.faults) <= disk.faults
      ensures displaced == LIVE || (displaced == s && old(disk.faults) < disk.faults)
    {
      var c := disk.Rename(s, LIVE);
      if !c.Done? { displaced := s; }
    }

    method Recreate() returns (r: Rotation)
      requires Valid() && displaced == LIVE && LIVE !in disk.image.names
      modifies this, disk`image, disk`next, disk`crashed, disk`faults
      ensures Valid() && r in {Recreated, RecreateFailed}
      ensures if r.Recreated? then file != old(file) && written == 0 && displaced == LIVE && LIVE in disk.image.names
                                   && drops == 0
              else file == old(file) && written == old(written) && drops == old(drops)
      ensures old(disk.faults) <= disk.faults && (r.RecreateFailed? ==> old(disk.faults) < disk.faults)
      ensures disk.image.data == if r.Recreated? then old(disk.image.data)[file := []] else old(disk.image.data)
    {
      var ok, f := disk.OpenLive();
      if !ok { return RecreateFailed; }
      Install(f);
      r := Recreated;
    }

    method Install(f: nat)
      requires disk.Sound() && OpenAt(disk.image, f, LIVE) && STAGING !in disk.image.names && displaced == LIVE
      requires f in disk.image.data && disk.image.data[f] == []
      modifies this
      ensures Valid() && InLog() && file == f && written == 0 && displaced == LIVE && drops == 0
    {
      file, written, drops := f, 0, 0;
    }
  }

  // The log's youngest file: the live one, or the staged one in its place.
  ghost function Front(m: Image): seq<Byte>
    requires m.Valid()
  {
    m.At(STAGING) + m.At(LIVE)
  }

  lemma FrontMoves(m: Image)
    requires m.Valid() && STAGING in m.names && LIVE !in m.names
    ensures Move(m, STAGING, LIVE).Valid() && Front(Move(m, STAGING, LIVE)) == Front(m)
  {
    MoveValid(m, STAGING, LIVE);
  }

  lemma FrontOpens(m: Image, file: nat)
    requires m.Valid() && LIVE !in m.names && file !in m.data
    ensures var m' := Image(m.names[LIVE := file], m.data[file := []]); m'.Valid() && Front(m') == Front(m)
  {
  }

  // Opens the log. A file left staged by an interrupted rotation goes back to the
  // live path first, so it is neither overwritten nor lost.
  method New(disk: Disk, maxSize: int) returns (ok: bool, w: Writer?)
    requires disk.Sound()
    modifies disk`image, disk`next, disk`crashed, disk`faults
    ensures disk.Sound() && disk.log == old(disk.log) && disk.dropped == old(disk.dropped)
    ensures !ok ==> w == null
    ensures ok ==> w != null && fresh(w) && w.disk == disk && w.maxSize == maxSize && w.Valid() && w.InLog() && w.drops == 0
    ensures ok ==> LIVE in disk.image.names && STAGING !in disk.image.names
    // Opening fails only when a call does, and moves no file but a staged one.
    ensures old(disk.faults) <= disk.faults && (!ok ==> old(disk.faults) < disk.faults)
    ensures Front(disk.image) == Front(old(disk.image)) && (ok ==> w.displaced == LIVE)
  {
    hide Front;
    ghost var before := disk.image;
    ok, w := false, null;
    var live := disk.Lstat(LIVE);
    if !live {
      var c := disk.Rename(STAGING, LIVE);
      if c.Done? { FrontMoves(before); }
      if c.Failed? { return; }
    }
    ghost var moved := disk.image;
    var isOpen, file := disk.OpenLive();
    if disk.image != moved { FrontOpens(moved, file); }
    if !isOpen { return; }
    w := new Writer(disk, maxSize, file, |disk.image.data[file]|);
    ok := true;
  }

  // ── whole lives of a log ────────────────────────────────────────────────────

  datatype Op = Append(bytes: seq<Byte>) | Restart

  // Any number of writes, failures, crashes at any system call and restarts. What is
  // retained is everything that was ever written, less whole copies dropped oldest
  // first.
  method Lifetime(disk: Disk, maxSize: int, ops: seq<Op>) returns (ghost accepted: seq<Byte>)
    requires disk.Sound()
    modifies disk
    ensures disk.Sound() && disk.log == old(disk.log) + accepted
    ensures old(disk.log) + accepted == Concat(disk.dropped) + disk.Retained()
    ensures old(disk.dropped) <= disk.dropped
    // Nothing is dropped before the live file has reached its limit.
    ensures |old(Front(disk.image))| + |accepted| < maxSize ==> disk.dropped == old(disk.dropped)
  {
    assert Unfilled(disk, null, |Front(disk.image)|, maxSize, disk.dropped);
    hide Unfilled, Front, Image.Younger, Writer.Valid, Writer.InLog;
    accepted := [];
    var w: Writer? := null;
    ghost var first, start := |Front(disk.image)|, disk.dropped;
    for i := 0 to |ops|
      invariant disk.Sound() && disk.log == old(disk.log) + accepted && start <= disk.dropped
      invariant w != null ==> fresh(w) && w.disk == disk && w.maxSize == maxSize && w.Valid() && w.InLog()
      invariant Unfilled(disk, w, first + |accepted|, maxSize, start)
    {
      match ops[i] {
      case Append(bytes) =>
        if w != null {
          var n := AppendOnce(w, bytes, first + |accepted|, start);
          accepted := accepted + bytes[..n];
        }
      case Restart =>
        NoWriter(disk, w, first + |accepted|, maxSize, start);
        w := Reopen(disk, maxSize, first + |accepted|, start);
      }
      // A process that was killed, in whatever call, leaves its files and no writer.
      if disk.crashed {
        NoWriter(disk, w, first + |accepted|, maxSize, start);
        w := null;
      }
    }
    NothingDropped(disk, w, first + |accepted|, maxSize, start);
  }

  lemma NoWriter(disk: Disk, w: Writer?, bytes: nat, maxSize: int, dropped: seq<seq<Byte>>)
    requires Unfilled(disk, w, bytes, maxSize, dropped)
    ensures Unfilled(disk, null, bytes, maxSize, dropped)
  {
  }

  lemma NothingDropped(disk: Disk, w: Writer?, bytes: nat, maxSize: int, dropped: seq<seq<Byte>>)
    requires Unfilled(disk, w, bytes, maxSize, dropped)
    ensures bytes < maxSize ==> disk.dropped == dropped
  {
  }

  // As long as fewer bytes than the limit were written, the live file holds them all.
  ghost predicate Unfilled(disk: Disk, w: Writer?, bytes: nat, maxSize: int, dropped: seq<seq<Byte>>)
    reads disk, w
  {
    bytes < maxSize ==>
      && disk.image.Valid() && disk.dropped == dropped && |Front(disk.image)| == bytes
      && (w != null ==> w.displaced == LIVE)
  }

  method AppendOnce(w: Writer, bytes: seq<Byte>, ghost before: nat, ghost dropped: seq<seq<Byte>>) returns (n: nat)
    requires w.Valid() && w.InLog() && Unfilled(w.disk, w, before, w.maxSize, dropped) && dropped <= w.disk.dropped
    modifies w, w.disk
    ensures w.Valid() && w.InLog() && n <= |bytes| && dropped <= w.disk.dropped
    ensures w.disk.log == old(w.disk.log) + bytes[..n]
    ensures Unfilled(w.disk, w, before + n, w.maxSize, dropped)
  {
    hide Front, Image.Younger, Writer.Thrifty, Disk.Sound;
    ghost var image := w.disk.image;
    if before < w.maxSize { FrontGrows(image, w.file, bytes[..0]); }
    var failed, rotation;
    n, failed, rotation := w.Write(bytes);
    if before + n < w.maxSize { FrontGrows(image, w.file, bytes[..n]); }
  }

  method Reopen(disk: Disk, maxSize: int, ghost before: nat, ghost dropped: seq<seq<Byte>>) returns (w: Writer?)
    requires disk.Sound() && Unfilled(disk, null, before, maxSize, dropped)
    modifies disk`image, disk`next, disk`crashed, disk`faults
    ensures disk.Sound() && disk.log == old(disk.log) && disk.dropped == old(disk.dropped)
    ensures w != null ==> fresh(w) && w.disk == disk && w.maxSize == maxSize && w.Valid() && w.InLog()
    ensures Unfilled(disk, w, before, maxSize, dropped)
  {
    hide Front, Image.Younger;
    disk.Boot();
    var ok;
    ok, w := New(disk, maxSize);
  }

  lemma FrontGrows(m: Image, file: nat, bytes: seq<Byte>)
    requires m.Valid() && LIVE in m.names && m.names[LIVE] == file && STAGING !in m.names
    ensures Grow(m, file, bytes).Valid() && Front(m) == m.data[file] && Front(Grow(m, file, bytes)) == Front(m) + bytes
  {
  }
}
