/**
 How the journal's files are pinned while they are rotated (internal/logs/query.go,
 snapshotFiles), against the rotation of internal/logrotate/logrotate.go.

 The history of the files is arbitrary and fixed in advance, and every system call
 moves the clock forward by any amount. A list of files is accepted when every
 name still means what it meant when it was opened.
 */
module Snapshot {
  import opened Wrappers
  import opened Bytes
  import opened LogRotate

  type History = nat -> Image

  // The reader looks at three rotated copies.
  const COPIES := 3

  function Bind(m: Image, s: Slot): Option<nat>
  {
    if s in m.names then Some(m.names[s]) else None
  }

  // The files that are the log at one instant, oldest first.
  function Files(m: Image, k: nat): seq<nat>
  {
    if k == 0 then [] else Present(Bind(m, k - 1)) + Files(m, k - 1)
  }

  function Present(b: Option<nat>): seq<nat>
  {
    if b.Some? then [b.value] else []
  }

  // ── what the history may do during a call ───────────────────────────────────

  ghost predicate SoundAt(at: History, t: nat)
  {
    at(t).Valid() && !(LIVE in at(t).names && STAGING in at(t).names)
  }

  // No name comes back to a file, or to nothing, once it has changed. The staged
  // name is held to this only from when the live one is absent.
  ghost predicate NeverReturns(at: History, from: nat, to: nat)
  {
    && (forall s: Slot, a: nat, b: nat, c: nat | from <= a <= b <= c <= to && s <= Copy(COPIES) && s != STAGING ::
          Keeps(at, s, a, b, c))
    && (forall o: nat, a: nat, b: nat, c: nat | from <= o <= a <= b <= c <= to && Bind(at(o), LIVE).None? ::
          Keeps(at, STAGING, a, b, c))
  }

  predicate Keeps(at: History, s: Slot, a: nat, b: nat, c: nat)
  {
    Bind(at(a), s) == Bind(at(c), s) ==> Bind(at(b), s) == Bind(at(a), s)
  }

  // A rotated copy is not written any more, and no open file vanishes.
  ghost predicate CopiesFrozen(at: History, from: nat, to: nat)
  {
    forall a: nat, b: nat, f: nat | from <= a <= b <= to && f in at(a).data ::
      && f in at(b).data && at(a).data[f] <= at(b).data[f]
      && ((exists i :: 1 <= i <= COPIES && Bind(at(a), Copy(i)) == Some(f)) ==> at(b).data[f] == at(a).data[f])
  }

  ghost predicate Steady(at: History, from: nat, to: nat)
  {
    (forall t: nat | from <= t <= to :: SoundAt(at, t)) && NeverReturns(at, from, to) && CopiesFrozen(at, from, to)
  }

  // ── what an accepted list is ────────────────────────────────────────────────

  // When each name was opened and when it was checked again.
  datatype Look = Look(seen: nat, checked: nat)

  type Looks = map<Slot, Look>

  // The copies, oldest first, then the live file, then the staged file only when
  // the live one was absent; every check comes after every open.
  ghost predicate InOrder(at: History, l: Looks, last: nat)
  {
    && Copy(3) in l && Copy(2) in l && Copy(1) in l && LIVE in l
    && (STAGING in l <==> Bind(at(l[LIVE].seen), LIVE).None?)
    && l[Copy(3)].seen <= l[Copy(2)].seen <= l[Copy(1)].seen <= l[LIVE].seen
    && (STAGING in l ==> l[LIVE].seen <= l[STAGING].seen)
    && (forall s | s in l :: s <= Copy(COPIES) && l[s].seen <= last <= l[s].checked)
  }

  // Every name means at its check what it meant when it was opened.
  ghost predicate Stable(at: History, l: Looks)
  {
    forall s | s in l :: Bind(at(l[s].checked), s) == Bind(at(l[s].seen), s)
  }

  ghost function Seen(at: History, l: Looks, s: Slot): seq<nat>
  {
    if s in l then Present(Bind(at(l[s].seen), s)) else []
  }

  // The accepted list; the staged file stands in for an absent live file.
  ghost function List(at: History, l: Looks): seq<nat>
  {
    InAge(Seen(at, l, Copy(3)), Seen(at, l, Copy(2)), Seen(at, l, Copy(1)), Seen(at, l, STAGING), Seen(at, l, LIVE))
  }

  function InAge(c3: seq<nat>, c2: seq<nat>, c1: seq<nat>, staged: seq<nat>, live: seq<nat>): seq<nat>
  {
    c3 + c2 + c1 + staged + live
  }

  lemma BindingHeld(at: History, from: nat, to: nat, s: Slot, o: nat, a: nat, b: nat, c: nat)
    requires NeverReturns(at, from, to) && from <= o <= a <= b <= c <= to && s <= Copy(COPIES)
    requires s == STAGING ==> Bind(at(o), LIVE).None?
    requires Bind(at(a), s) == Bind(at(c), s)
    ensures Bind(at(b), s) == Bind(at(a), s)
  {
    assert Keeps(at, s, a, b, c) by {
      if s == STAGING { assert Keeps(at, STAGING, a, b, c); }
    }
  }

  ghost predicate Within(l: Looks, from: nat, last: nat, to: nat)
  {
    from <= last <= to && forall s | s in l :: from <= l[s].seen && l[s].checked <= to
  }

  ghost predicate Accepted(at: History, l: Looks, from: nat, last: nat, to: nat)
  {
    InOrder(at, l, last) && Stable(at, l) && Within(l, from, last, to)
  }

  // What was seen of a name is what it meant at the last open.
  lemma SeenIsBound(at: History, l: Looks, from: nat, last: nat, to: nat, s: Slot)
    requires Steady(at, from, to) && Accepted(at, l, from, last, to) && s in l
    ensures Seen(at, l, s) == Present(Bind(at(last), s)) && Bind(at(last), s) == Bind(at(l[s].seen), s)
  {
    assert l[s].seen <= last <= l[s].checked && s <= Copy(COPIES);
    assert Bind(at(l[s].seen), s) == Bind(at(l[s].checked), s);
    var o := if s == STAGING then l[LIVE].seen else l[s].seen;
    assert from <= o <= l[s].seen && (s == STAGING ==> Bind(at(o), LIVE).None?);
    hide InOrder, NeverReturns, CopiesFrozen, SoundAt;
    BindingHeld(at, from, to, s, o, l[s].seen, last, l[s].checked);
  }

  // Beside a live file the staged name is not looked at, and is free.
  lemma StagingIsFree(at: History, l: Looks, from: nat, last: nat, to: nat)
    requires Steady(at, from, to) && Accepted(at, l, from, last, to) && STAGING !in l
    ensures Seen(at, l, STAGING) == Present(Bind(at(last), STAGING)) == []
  {
    assert LIVE in l && Bind(at(l[LIVE].seen), LIVE).Some?;
    assert SoundAt(at, last);
    assert !(LIVE in at(last).names && STAGING in at(last).names);
    hide Accepted, SoundAt, Steady;
    SeenIsBound(at, l, from, last, to, LIVE);
    assert LIVE in at(last).names;
  }

  // An accepted list is the whole log at the instant of the last open: no file is
  // read twice and none is skipped.
  lemma AcceptedIsInstant(at: History, l: Looks, from: nat, last: nat, to: nat)
    requires Steady(at, from, to) && Accepted(at, l, from, last, to)
    ensures List(at, l) == Files(at(last), COPIES + 2)
  {
    FilesOf(at(last));
    assert Copy(1) in l && Copy(2) in l && Copy(3) in l && LIVE in l;
    hide Steady, Accepted, Seen, Present, Bind, Files, InAge;
    SeenIsBound(at, l, from, last, to, Copy(3));
    SeenIsBound(at, l, from, last, to, Copy(2));
    SeenIsBound(at, l, from, last, to, Copy(1));
    SeenIsBound(at, l, from, last, to, LIVE);
    if STAGING in l { SeenIsBound(at, l, from, last, to, STAGING); } else { StagingIsFree(at, l, from, last, to); }
  }

  lemma FilesOf(m: Image)
    ensures Files(m, COPIES + 2) == InAge(Present(Bind(m, Copy(3))), Present(Bind(m, Copy(2))), Present(Bind(m, Copy(1))),
                                          Present(Bind(m, STAGING)), Present(Bind(m, LIVE)))
  {
    hide Present, Bind;
    var c3, c2, c1, staged, live := Present(Bind(m, 4)), Present(Bind(m, 3)), Present(Bind(m, 2)), Present(Bind(m, 1)),
                                    Present(Bind(m, 0));
    assert Files(m, 2) == staged + live by { assert Files(m, 1) == live + []; }
    assert Files(m, 4) == c2 + (c1 + (staged + live)) by { assert Files(m, 3) == c1 + Files(m, 2); }
    assert Files(m, 5) == c3 + Files(m, 4);
  }

  // ── one rotation ────────────────────────────────────────────────────────────

  // What the slots name after p steps of a rotation that found copy slot `free` first.
  // Step 1 stages, step 2 clears that slot, `free` - 1 steps shift, one more turns the
  // staged file into copy 1, and the last creates `born`.
  ghost function Names(m: Image, free: nat, born: nat, p: nat): map<Slot, nat>
    requires LIVE in m.names && 1 <= free <= COPIES && p <= free + 3
    requires forall j | 1 <= j < free :: Copy(j) in m.names
    ensures p == 1 || (2 <= p <= free + 1) ==> STAGING in Names(m, free, born, p)
    ensures 2 <= p <= free + 1 ==> forall j | 1 <= j < free + 2 - p :: Copy(j) in Names(m, free, born, p)
  {
    if p == 0 then m.names
    else if p == 1 then Renamed(m.names, LIVE, STAGING)
    else if p == 2 then Names(m, free, born, 1) - {Copy(free)}
    else if p <= free + 1 then Renamed(Names(m, free, born, p - 1), Copy(free + 2 - p), Copy(free + 3 - p))
    else if p == free + 2 then Renamed(Names(m, free, born, p - 1), STAGING, Copy(1))
    else Names(m, free, born, p - 1)[LIVE := born]
  }

  ghost function Renamed(names: map<Slot, nat>, a: Slot, b: Slot): map<Slot, nat>
    requires a in names
  {
    Move(Image(names, map[]), a, b).names
  }

  // What name s means after p steps.
  ghost function NameAt(m: Image, free: nat, born: nat, p: nat, s: Slot): Option<nat>
    requires LIVE in m.names
  {
    if s == LIVE then if p == 0 then Bind(m, LIVE) else if p <= free + 2 then None else Some(born)
    else if s == STAGING then if 1 <= p <= free + 1 then Bind(m, LIVE) else None
    else if s > Copy(free) || p + s < free + 3 then Bind(m, s)
    else if p + s == free + 3 then None
    else Bind(m, if s == Copy(1) then LIVE else s - 1)
  }

  lemma {:induction false} NamesByStep(m: Image, free: nat, born: nat, p: nat, s: Slot)
    requires LIVE in m.names && STAGING !in m.names && 1 <= free <= COPIES && p <= free + 3
    requires forall j | 1 <= j < free :: Copy(j) in m.names
    ensures NameAt(m, free, born, p, s) ==
      (if s in Names(m, free, born, p) then Some(Names(m, free, born, p)[s]) else None)
  {
    if p > 0 {
      NamesByStep(m, free, born, p - 1, s);
      if 3 <= p <= free + 1 { NamesByStep(m, free, born, p - 1, Copy(free + 2 - p)); }
      if p == 1 { NamesByStep(m, free, born, 0, LIVE); }
      if p == free + 2 { NamesByStep(m, free, born, p - 1, STAGING); }
    }
  }

  // Over its steps no name of one rotation means the same thing twice.
  lemma NameNeverReturns(m: Image, free: nat, born: nat, p: nat, q: nat, r: nat, s: Slot)
    requires m.Valid() && LIVE in m.names && STAGING !in m.names && 1 <= free <= COPIES && p <= q <= r <= free + 3
    requires (forall j | 1 <= j < free :: Copy(j) in m.names) && born !in m.data
    requires NameAt(m, free, born, p, s) == NameAt(m, free, born, r, s) && (s == STAGING ==> p >= 1)
    ensures NameAt(m, free, born, q, s) == NameAt(m, free, born, p, s)
  {
    if STAGING < s < Copy(free) { assert Copy(s - 1) == s; }
  }

  // One rotation: the files it starts with, the slot where it finds the open file,
  // the first free copy slot once that file is at the live path (the last slot when
  // all are taken), and the file it creates.
  datatype Round = Round(start: Image, open: Slot, free: nat, born: nat)
  {
    // An earlier rotation that failed may have left the open file under the staged
    // name or the newest copy's; the first step takes it home.
    ghost function Home(): Image
      requires open in start.names
    {
      if open == LIVE then start else Move(start, open, LIVE)
    }

    function Lead(): nat { if open == LIVE then 0 else 1 }

    function Steps(): nat { free + 3 + Lead() }

    ghost predicate Valid()
    {
      && start.Valid() && open in start.names && start.Free(0, open) && open in {LIVE, STAGING, Copy(1)}
      && (open == LIVE ==> STAGING !in start.names) && born !in start.data
      && 1 <= free <= COPIES && (free < COPIES ==> Copy(free) !in Home().names)
      && forall j | 1 <= j < free :: Copy(j) in Home().names
    }
  }

  // Whenever the writer of a log of three copies comes to rotate, with its file in
  // the log, its rotation is one of these.
  lemma EveryStart(w: Writer) returns (r: Round)
    requires w.Valid() && w.InLog() && w.disk.slots == COPIES
    ensures r.Valid() && r.start == w.disk.image && r.open == w.displaced && r.start.names[r.open] == w.file
  {
    r := Round(w.disk.image, w.displaced, COPIES, w.disk.next);
    var names := r.Home().names;
    r := r.(free := if Copy(1) !in names then 1 else if Copy(2) !in names then 2 else COPIES);
  }

  ghost function NamesAfter(r: Round, p: nat): map<Slot, nat>
    requires r.Valid() && p <= r.Steps()
  {
    if p < r.Lead() then r.start.names else Names(r.Home(), r.free, r.born, p - r.Lead())
  }

  ghost function BoundAfter(r: Round, p: nat, s: Slot): Option<nat>
    requires r.Valid()
  {
    if p < r.Lead() then Bind(r.start, s) else NameAt(r.Home(), r.free, r.born, p - r.Lead(), s)
  }

  // At most one rotation overlaps the interval. Before it and after it only the
  // live file is written.
  ghost predicate OneRotation(at: History, from: nat, to: nat, r: Round, phase: nat -> nat)
  {
    && r.Valid()
    && (forall a: nat, b: nat | from <= a <= b <= to :: phase(a) <= phase(b) <= r.Steps())
    && (forall t: nat | from <= t <= to :: phase(t) <= r.Steps() && Stepped(at(t), r, phase(t)))
    && (forall a: nat, b: nat | from <= a <= b <= to ::
          Written(at(a), at(b), r.start.names[r.open], r.born, phase(a)))
  }

  ghost predicate Stepped(now: Image, r: Round, p: nat)
    requires r.Valid() && p <= r.Steps()
  {
    now.Valid() && now.names == NamesAfter(r, p)
  }

  ghost predicate Written(a: Image, b: Image, live: nat, born: nat, p: nat)
  {
    forall f | f in a.data ::
      f in b.data && a.data[f] <= b.data[f] && (b.data[f] == a.data[f] || (f == live && p == 0) || f == born)
  }

  lemma NamesAreBound(r: Round, p: nat, s: Slot)
    requires r.Valid() && p <= r.Steps()
    ensures BoundAfter(r, p, s) == (if s in NamesAfter(r, p) then Some(NamesAfter(r, p)[s]) else None)
  {
    if p >= r.Lead() { NamesByStep(r.Home(), r.free, r.born, p - r.Lead(), s); }
  }

  lemma OneRotationBinds(at: History, from: nat, to: nat, r: Round, phase: nat -> nat, t: nat, s: Slot)
    requires OneRotation(at, from, to, r, phase) && from <= t <= to
    ensures Bind(at(t), s) == BoundAfter(r, phase(t), s) && at(t).Valid()
  {
    assert Stepped(at(t), r, phase(t));
    NamesAreBound(r, phase(t), s);
  }

  lemma OneRotationNeverReturns(at: History, from: nat, to: nat, r: Round, phase: nat -> nat)
    requires OneRotation(at, from, to, r, phase) && r.open == LIVE
    ensures NeverReturns(at, from, to)
  {
    hide OneRotation, Keeps;
    forall s: Slot, a: nat, b: nat, c: nat | from <= a <= b <= c <= to && s <= Copy(COPIES) && s != STAGING
      ensures Keeps(at, s, a, b, c)
    {
      Between(at, from, to, r, phase, a, b, c, s);
    }
    forall o: nat, a: nat, b: nat, c: nat | from <= o <= a <= b <= c <= to && Bind(at(o), LIVE).None?
      ensures Keeps(at, STAGING, a, b, c)
    {
      StagedBy(at, from, to, r, phase, o, a);
      Between(at, from, to, r, phase, a, b, c, STAGING);
    }
  }

  lemma StagedBy(at: History, from: nat, to: nat, r: Round, phase: nat -> nat, o: nat, a: nat)
    requires OneRotation(at, from, to, r, phase) && r.open == LIVE
    requires from <= o <= a <= to && Bind(at(o), LIVE).None?
    ensures phase(a) >= 1
  {
    OneRotationBinds(at, from, to, r, phase, o, LIVE);
    assert phase(o) <= phase(a);
  }

  lemma Between(at: History, from: nat, to: nat, r: Round, phase: nat -> nat, a: nat, b: nat, c: nat, s: Slot)
    requires OneRotation(at, from, to, r, phase) && r.open == LIVE && from <= a <= b <= c <= to
    requires s == STAGING ==> phase(a) >= 1
    ensures Keeps(at, s, a, b, c)
  {
    OneRotationBinds(at, from, to, r, phase, a, s);
    OneRotationBinds(at, from, to, r, phase, b, s);
    OneRotationBinds(at, from, to, r, phase, c, s);
    assert phase(a) <= phase(b) <= phase(c) <= r.Steps();
    if Bind(at(a), s) == Bind(at(c), s) {
      NameNeverReturns(r.start, r.free, r.born, phase(a), phase(b), phase(c), s);
    }
  }

  // A copy other than the open file, or the open file once it is a copy, is not
  // written any more.
  lemma CopyIsWritten(at: History, from: nat, to: nat, r: Round, phase: nat -> nat, a: nat, i: nat)
    requires OneRotation(at, from, to, r, phase) && r.open == LIVE && from <= a <= to && 1 <= i <= COPIES
    ensures Bind(at(a), Copy(i)) != Some(r.born)
    ensures phase(a) == 0 ==> Bind(at(a), Copy(i)) != Some(r.start.names[LIVE])
  {
    OneRotationBinds(at, from, to, r, phase, a, Copy(i));
  }

  lemma OneRotationFreezes(at: History, from: nat, to: nat, r: Round, phase: nat -> nat)
    requires OneRotation(at, from, to, r, phase) && r.open == LIVE
    ensures CopiesFrozen(at, from, to)
  {
    forall a: nat, b: nat, f: nat | from <= a <= b <= to && f in at(a).data
      ensures f in at(b).data && at(a).data[f] <= at(b).data[f]
      ensures (exists i :: 1 <= i <= COPIES && Bind(at(a), Copy(i)) == Some(f)) ==> at(b).data[f] == at(a).data[f]
    {
      assert Written(at(a), at(b), r.start.names[LIVE], r.born, phase(a));
      hide OneRotation, Bind;
      if i :| 1 <= i <= COPIES && Bind(at(a), Copy(i)) == Some(f) {
        CopyIsWritten(at, from, to, r, phase, a, i);
      }
    }
  }

  lemma OneRotationIsSound(at: History, from: nat, to: nat, r: Round, phase: nat -> nat, t: nat)
    requires OneRotation(at, from, to, r, phase) && from <= t <= to
    ensures SoundAt(at, t)
  {
    OneRotationBinds(at, from, to, r, phase, t, LIVE);
    OneRotationBinds(at, from, to, r, phase, t, STAGING);
  }

  // Whatever a rotation does that starts from the live path, the reader's check
  // sees through it.
  lemma OneRotationIsSteady(at: History, from: nat, to: nat, r: Round, phase: nat -> nat)
    requires OneRotation(at, from, to, r, phase) && r.open == LIVE
    ensures Steady(at, from, to)
  {
    hide OneRotation, SoundAt, NeverReturns, CopiesFrozen;
    OneRotationNeverReturns(at, from, to, r, phase);
    OneRotationFreezes(at, from, to, r, phase);
    forall t: nat | from <= t <= to
      ensures SoundAt(at, t)
    {
      OneRotationIsSound(at, from, to, r, phase, t);
    }
  }

  // ── rotations that start displaced ──────────────────────────────────────────

  // A rotation that takes one step at each instant.
  ghost function Played(r: Round): History
    requires r.Valid()
  {
    (t: nat) => PlayedNow(r, Paced(r, t))
  }

  function Paced(r: Round, t: nat): nat
  {
    if t <= r.Steps() then t else r.Steps()
  }

  ghost function PlayedNow(r: Round, p: nat): Image
    requires r.Valid() && p <= r.Steps()
  {
    Image(NamesAfter(r, p), if p == r.Steps() then r.start.data[r.born := []] else r.start.data)
  }

  function Pace(r: Round): nat -> nat
  {
    (t: nat) => Paced(r, t)
  }

  // At every step no two names mean one file, and only the last has the new one.
  lemma NamesDistinct(m: Image, free: nat, born: nat, p: nat, s: Slot, u: Slot)
    requires m.Valid() && LIVE in m.names && STAGING !in m.names && 1 <= free <= COPIES && p <= free + 3
    requires (forall j | 1 <= j < free :: Copy(j) in m.names) && born !in m.data
    ensures var b := NameAt(m, free, born, p, s);
      && (b.Some? ==> if p == free + 3 && s == LIVE then b.value == born else b.value in m.names.Values)
      && (b.Some? && NameAt(m, free, born, p, u) == b ==> s == u)
  {
  }

  lemma HomeIsValid(r: Round)
    requires r.Valid()
    ensures r.Home().Valid() && r.Home().data == r.start.data
    ensures LIVE in r.Home().names && STAGING !in r.Home().names && r.Home().names[LIVE] == r.start.names[r.open]
  {
  }

  lemma PlayedIsValid(r: Round, p: nat)
    requires r.Valid() && p <= r.Steps()
    ensures PlayedNow(r, p).Valid()
  {
    var m := PlayedNow(r, p);
    HomeIsValid(r);
    forall s, u | s in m.names && u in m.names
      ensures m.names[s] in m.data && (m.names[s] == m.names[u] ==> s == u)
    {
      NamesAreBound(r, p, s);
      NamesAreBound(r, p, u);
      if p >= r.Lead() { NamesDistinct(r.Home(), r.free, r.born, p - r.Lead(), s, u); }
    }
  }

  lemma PlayedIsRotation(r: Round, to: nat)
    requires r.Valid()
    ensures OneRotation(Played(r), 0, to, r, Pace(r))
  {
    var at, phase := Played(r), Pace(r);
    hide PlayedNow, NamesAfter, Stepped, Written, Round.Valid, Round.Home, Round.Steps;
    forall t: nat | t <= to
      ensures phase(t) <= r.Steps() && Stepped(at(t), r, phase(t))
    {
      PlayedStepped(r, phase(t));
    }
    forall a: nat, b: nat | a <= b <= to
      ensures Written(at(a), at(b), r.start.names[r.open], r.born, phase(a))
    {
      PlayedWrites(r, phase(a), phase(b));
    }
  }

  lemma PlayedStepped(r: Round, p: nat)
    requires r.Valid() && p <= r.Steps()
    ensures Stepped(PlayedNow(r, p), r, p)
  {
    PlayedIsValid(r, p);
  }

  lemma PlayedWrites(r: Round, p: nat, q: nat)
    requires r.Valid() && p <= q <= r.Steps()
    ensures Written(PlayedNow(r, p), PlayedNow(r, q), r.start.names[r.open], r.born, p)
  {
  }

  lemma PlayedBinds(r: Round, t: nat, s: Slot)
    requires r.Valid()
    ensures Bind(Played(r)(t), s) == BoundAfter(r, Paced(r, t), s) && Played(r)(t).Valid()
  {
    PlayedIsRotation(r, t);
    hide Bind, Played, OneRotation;
    OneRotationBinds(Played(r), 0, t, r, Pace(r), t, s);
  }

  lemma {:induction false} FilesAre(m: Image, k: nat, f: nat)
    ensures f in Files(m, k) <==> exists s :: 0 <= s < k && Bind(m, s) == Some(f)
  {
    if k > 0 { FilesAre(m, k - 1, f); }
  }

  lemma {:induction false} FilesDistinct(m: Image, k: nat, i: nat, j: nat)
    requires m.Valid() && i < j < |Files(m, k)|
    ensures Files(m, k)[i] != Files(m, k)[j]
  {
    var first := Present(Bind(m, k - 1));
    if i >= |first| {
      FilesDistinct(m, k - 1, i - |first|, j - |first|);
    } else {
      var f := Files(m, k)[j];
      assert f == Files(m, k - 1)[j - |first|];
      FilesAre(m, k - 1, f);
    }
  }

  // The looks of a reader that runs into such a rotation.
  function TwiceLooks(r: Round): Looks
  {
    map[Copy(3) := Look(0, 1), Copy(2) := Look(0, 1), Copy(1) := Look(0, r.Steps()), LIVE := Look(1, 1)]
  }

  function SkippingLooks(r: Round): Looks
  {
    map[Copy(3) := Look(0, 1), Copy(2) := Look(0, 1), Copy(1) := Look(0, 1), LIVE := Look(0, 2),
        STAGING := Look(1, r.Steps())]
  }

  ghost predicate Tricked(r: Round, l: Looks)
    requires r.Valid()
  {
    && Accepted(Played(r), l, 0, 1, r.Steps())
    && forall t: nat :: List(Played(r), l) != Files(Played(r)(t), COPIES + 2)
  }

  lemma TwiceAccepted(r: Round)
    requires r.Valid() && r.open == Copy(1)
    ensures Accepted(Played(r), TwiceLooks(r), 0, 1, r.Steps())
    ensures var f := r.start.names[Copy(1)];
      Seen(Played(r), TwiceLooks(r), Copy(1)) == [f] == Seen(Played(r), TwiceLooks(r), LIVE)
    ensures Seen(Played(r), TwiceLooks(r), STAGING) == []
  {
    hide Played, Bind;
    PlayedBinds(r, 0, Copy(3));
    PlayedBinds(r, 1, Copy(3));
    PlayedBinds(r, 0, Copy(2));
    PlayedBinds(r, 1, Copy(2));
    PlayedBinds(r, 0, Copy(1));
    PlayedBinds(r, r.Steps(), Copy(1));
    PlayedBinds(r, 1, LIVE);
    RoundFromCopy(r);
  }

  lemma RoundFromCopy(r: Round)
    requires r.Valid() && r.open == Copy(1)
    ensures r.free == 1 && r.Steps() == 5
    ensures BoundAfter(r, 0, Copy(1)) == BoundAfter(r, 5, Copy(1)) == BoundAfter(r, 1, LIVE) == Some(r.start.names[Copy(1)])
    ensures forall i | 2 <= i <= COPIES :: BoundAfter(r, 0, Copy(i)) == BoundAfter(r, 1, Copy(i)) == Bind(r.start, Copy(i))
  {
    assert r.free > 1 ==> Copy(1) in r.Home().names;
  }

  // Started from the newest copy's name, it lets a reader accept a list that holds
  // the open file twice.
  lemma DisplacedDuplicates(r: Round) returns (l: Looks)
    requires r.Valid() && r.open == Copy(1)
    ensures Tricked(r, l)
  {
    l := TwiceLooks(r);
    TwiceAccepted(r);
    var list, f := List(Played(r), l), r.start.names[Copy(1)];
    assert |list| >= 2 && list[|list| - 2] == f && list[|list| - 1] == f;
    forall t: nat
      ensures list != Files(Played(r)(t), COPIES + 2)
    {
      PlayedBinds(r, t, LIVE);
      hide Files, List, Played;
      if |Files(Played(r)(t), COPIES + 2)| == |list| {
        FilesDistinct(Played(r)(t), COPIES + 2, |list| - 2, |list| - 1);
      }
    }
  }

  lemma SkippingAccepted(r: Round)
    requires r.Valid() && r.open == STAGING
    ensures Accepted(Played(r), SkippingLooks(r), 0, 1, r.Steps())
    ensures r.start.names[STAGING] !in List(Played(r), SkippingLooks(r))
  {
    hide Played, Bind;
    PlayedBinds(r, 0, Copy(3));
    PlayedBinds(r, 1, Copy(3));
    PlayedBinds(r, 0, Copy(2));
    PlayedBinds(r, 1, Copy(2));
    PlayedBinds(r, 0, Copy(1));
    PlayedBinds(r, 1, Copy(1));
    PlayedBinds(r, 0, LIVE);
    PlayedBinds(r, 2, LIVE);
    PlayedBinds(r, 1, STAGING);
    PlayedBinds(r, r.Steps(), STAGING);
    RoundFromStaging(r);
  }

  lemma RoundFromStaging(r: Round)
    requires r.Valid() && r.open == STAGING
    ensures BoundAfter(r, 0, LIVE) == BoundAfter(r, 2, LIVE) == None
    ensures BoundAfter(r, 1, STAGING) == BoundAfter(r, r.Steps(), STAGING) == None
    ensures forall i | 1 <= i <= COPIES :: BoundAfter(r, 0, Copy(i)) == BoundAfter(r, 1, Copy(i)) == Bind(r.start, Copy(i))
    ensures forall i | 1 <= i <= COPIES :: Bind(r.start, Copy(i)) != Some(r.start.names[STAGING])
  {
  }

  // The open file always has a name.
  lemma OpenIsNamed(r: Round, p: nat)
    requires r.Valid() && p <= r.Steps()
    ensures exists s :: 0 <= s < COPIES + 2 && BoundAfter(r, p, s) == Some(r.start.names[r.open])
  {
    var p' := if p < r.Lead() then 0 else p - r.Lead();
    var s := if p < r.Lead() then r.open else if p' == 0 then LIVE else if p' <= r.free + 1 then STAGING else Copy(1);
    HomeIsValid(r);
    assert BoundAfter(r, p, s) == Some(r.start.names[r.open]);
  }

  // Started from the staged name, it lets a reader accept a list without it.
  lemma DisplacedSkips(r: Round) returns (l: Looks)
    requires r.Valid() && r.open == STAGING
    ensures Tricked(r, l)
  {
    l := SkippingLooks(r);
    SkippingAccepted(r);
    var f := r.start.names[STAGING];
    forall t: nat
      ensures List(Played(r), l) != Files(Played(r)(t), COPIES + 2)
    {
      hide List, Played, Files, Bind;
      OpenIsNamed(r, Paced(r, t));
      var s :| 0 <= s < COPIES + 2 && BoundAfter(r, Paced(r, t), s) == Some(f);
      PlayedBinds(r, t, s);
      FilesAre(Played(r)(t), COPIES + 2, f);
    }
  }

  // Every list accepted in the interval is the list of files at an instant of it.
  ghost predicate Linear(at: History, from: nat, to: nat)
  {
    forall l: Looks, last: nat | Accepted(at, l, from, last, to) ::
      exists t: nat :: from <= t <= to && List(at, l) == Files(at(t), COPIES + 2)
  }

  ghost predicate AlwaysLinear(r: Round)
  {
    forall at: History, from: nat, to: nat, phase: nat -> nat | OneRotation(at, from, to, r, phase) ::
      Linear(at, from, to)
  }

  // A reader that one rotation overlaps is safe from it exactly when it starts with
  // the open file at the live path.
  lemma LinearExactlyFromLivePath(r: Round)
    requires r.Valid()
    ensures AlwaysLinear(r) <==> r.open == LIVE
  {
    hide OneRotation, List, Files, Accepted;
    if r.open == LIVE {
      forall at: History, from: nat, to: nat, phase: nat -> nat | OneRotation(at, from, to, r, phase)
        ensures Linear(at, from, to)
      {
        FromLivePathIsLinear(at, from, to, r, phase);
      }
    } else {
      var l: Looks;
      if r.open == STAGING { l := DisplacedSkips(r); } else { l := DisplacedDuplicates(r); }
      PlayedIsRotation(r, r.Steps());
      assert !Linear(Played(r), 0, r.Steps());
    }
  }

  lemma FromLivePathIsLinear(at: History, from: nat, to: nat, r: Round, phase: nat -> nat)
    requires OneRotation(at, from, to, r, phase) && r.open == LIVE
    ensures Linear(at, from, to)
  {
    hide OneRotation, List, Files, Steady;
    OneRotationIsSteady(at, from, to, r, phase);
    forall l: Looks, last: nat | Accepted(at, l, from, last, to)
      ensures exists t: nat :: from <= t <= to && List(at, l) == Files(at(t), COPIES + 2)
    {
      AcceptedIsInstant(at, l, from, last, to);
    }
  }

  // ── the reader ──────────────────────────────────────────────────────────────

  datatype Pinned = Pinned(file: nat, size: nat)

  datatype Sight = Sight(bound: Option<nat>, size: nat)

  datatype Result = Snapshot(files: seq<Pinned>) | Missing | Busy | OpenFailed

  class Journal {
    const at: History
    // The instants at which a call may fail for a reason of its own.
    const denies: nat -> bool
    var now: nat

    method Advance()
      modifies this
      ensures old(now) <= now
    {
      var d :| 0 <= d;
      now := now + d;
    }

    // Opens a name and reads the size of what it opened, which the handle pins.
    method Look(s: Slot) returns (ok: bool, sight: Sight, ghost seen: nat)
      modifies this
      ensures old(now) <= seen <= now
      ensures ok ==> sight.bound == Bind(at(seen), s)
      ensures ok && sight.bound.Some? && sight.bound.value in at(now).data ==>
        sight.size == |at(now).data[sight.bound.value]|
      ensures !ok ==> !Fair(this, old(now), now)
    {
      Advance();
      seen := now;
      ok := *;
      ok := ok || !denies(now);
      if s !in at(now).names { return ok, Sight(None, 0), seen; }
      var f := at(now).names[s];
      if !ok { return ok, Sight(None, 0), seen; }
      Advance();
      ok := *;
      ok := ok || !denies(now);
      sight := Sight(Some(f), if f in at(now).data then |at(now).data[f]| else 0);
    }

    // Whether a name still means what was seen; a failed call proves nothing.
    method Same(s: Slot, bound: Option<nat>) returns (same: bool)
      modifies this
      ensures old(now) <= now && (same ==> Bind(at(now), s) == bound)
      ensures !same ==> Bind(at(now), s) != bound || !Fair(this, old(now), now)
    {
      Advance();
      var failed: bool := *;
      same := !(failed && denies(now)) && Bind(at(now), s) == bound;
    }
  }

  ghost predicate Fair(j: Journal, from: nat, to: nat)
  {
    forall t: nat | from <= t <= to :: !j.denies(t)
  }

  // Every name means the same at all these instants.
  ghost predicate Still(at: History, from: nat, to: nat)
  {
    forall a: nat, b: nat, s: Slot | from <= a <= to && from <= b <= to && s <= Copy(COPIES) :: Bind(at(a), s) == Bind(at(b), s)
  }

  // The names changed in each of n intervals that follow one another.
  ghost predicate Restless(at: History, from: nat, to: nat, n: nat)
  {
    n == 0 || exists mid: nat :: from <= mid <= to && !Still(at, mid, to) && Restless(at, from, mid, n - 1)
  }

  lemma {:induction false} RestlessLater(at: History, from: nat, a: nat, b: nat, n: nat)
    requires from <= a <= b && Restless(at, from, a, n)
    ensures Restless(at, from, b, n)
  {
    if n > 0 {
      var mid: nat :| from <= mid <= a && !Still(at, mid, a) && Restless(at, from, mid, n - 1);
      StillWithin(at, mid, mid, a, b);
    }
  }

  lemma StillWithin(at: History, from: nat, a: nat, b: nat, to: nat)
    requires from <= a <= b <= to
    ensures Still(at, from, to) ==> Still(at, a, b)
  {
  }

  // The files seen, from the oldest slot down to slot k.
  function Gathered(seen: map<Slot, Sight>, k: nat): seq<Pinned>
    decreases COPIES + 2 - k
  {
    if k >= COPIES + 2 then [] else Gathered(seen, k + 1) + Handle(seen, k)
  }

  function Handle(seen: map<Slot, Sight>, s: Slot): seq<Pinned>
  {
    if s in seen && seen[s].bound.Some? then [Pinned(seen[s].bound.value, seen[s].size)] else []
  }

  function FilesOnly(ps: seq<Pinned>): seq<nat>
  {
    seq(|ps|, i requires 0 <= i < |ps| => ps[i].file)
  }

  // Every handle holds at least as much as was seen of it.
  ghost predicate Readable(now: Image, ps: seq<Pinned>)
  {
    forall p | p in ps :: p.file in now.data && p.size <= |now.data[p.file]|
  }

  // What the pinned handles yield when each is read up to its size.
  ghost function Contents(m: Image, ps: seq<Pinned>): seq<Byte>
    requires Readable(m, ps)
  {
    if ps == [] then []
    else m.data[ps[0].file][..ps[0].size] + Contents(m, ps[1..])
  }

  // A list read now yields the whole log as it was at instant t.
  ghost predicate IsLogAt(now: Image, ps: seq<Pinned>, past: Image)
  {
    && FilesOnly(ps) == Files(past, COPIES + 2) && past.Valid()
    && Readable(now, ps) && Contents(now, ps) == past.Younger(COPIES + 2)
  }

  lemma {:induction false} ContentsJoin(m: Image, ps: seq<Pinned>, qs: seq<Pinned>)
    requires Readable(m, ps) && Readable(m, qs)
    ensures Readable(m, ps + qs) && Contents(m, ps + qs) == Contents(m, ps) + Contents(m, qs)
  {
    if ps == [] {
      assert ps + qs == qs;
    } else {
      assert (ps + qs)[1..] == ps[1..] + qs && (ps + qs)[0] == ps[0];
      ContentsJoin(m, ps[1..], qs);
    }
  }

  // What was seen of slot s is what it is in `past`, and reading it up to the size
  // seen yields what it held then.
  ghost predicate Faithful(now: Image, past: Image, seen: map<Slot, Sight>, s: Slot)
  {
    && Bind(past, s) == (if s in seen then seen[s].bound else None)
    && (s in past.names ==>
          var f := past.names[s];
          && f in now.data && f in past.data && seen[s].size == |past.data[f]| && past.data[f] <= now.data[f])
  }

  lemma FilesOnlyJoin(ps: seq<Pinned>, qs: seq<Pinned>)
    ensures FilesOnly(ps + qs) == FilesOnly(ps) + FilesOnly(qs)
  {
  }

  lemma HandleNames(now: Image, past: Image, seen: map<Slot, Sight>, s: Slot)
    requires Faithful(now, past, seen, s)
    ensures FilesOnly(Handle(seen, s)) == Present(Bind(past, s))
  {
  }

  lemma {:induction false} GatherFiles(now: Image, past: Image, seen: map<Slot, Sight>, k: nat)
    requires k <= COPIES + 2 && forall s | 0 <= s < COPIES + 2 :: Faithful(now, past, seen, s)
    ensures FilesOnly(Gathered(seen, k)) + Files(past, k) == Files(past, COPIES + 2)
    decreases COPIES + 2 - k
  {
    hide Faithful, FilesOnly, Handle, Present, Bind;
    if k == COPIES + 2 {
      NothingGathered();
    } else {
      GatherFiles(now, past, seen, k + 1);
      var older, here := Gathered(seen, k + 1), Handle(seen, k);
      HandleNames(now, past, seen, k);
      FilesOnlyJoin(older, here);
      assert (FilesOnly(older) + FilesOnly(here)) + Files(past, k) == FilesOnly(older) + (FilesOnly(here) + Files(past, k));
    }
  }

  lemma NothingGathered()
    ensures FilesOnly([]) == []
  {
  }

  lemma {:induction false} GatherContents(now: Image, past: Image, seen: map<Slot, Sight>, k: nat)
    requires past.Valid() && k <= COPIES + 2 && forall s | 0 <= s < COPIES + 2 :: Faithful(now, past, seen, s)
    ensures Readable(now, Gathered(seen, k))
    ensures Contents(now, Gathered(seen, k)) + past.Younger(k) == past.Younger(COPIES + 2)
    decreases COPIES + 2 - k
  {
    hide Faithful, Handle, Readable, Contents, Image.At, Image.Younger, Image.Valid;
    NothingToRead(now);
    if k < COPIES + 2 {
      GatherContents(now, past, seen, k + 1);
      var older, here := Gathered(seen, k + 1), Handle(seen, k);
      HandleYields(now, past, seen, k);
      ContentsJoin(now, older, here);
      AtThenYounger(past, k, Contents(now, older));
    }
  }

  lemma AtThenYounger(m: Image, k: nat, older: seq<Byte>)
    requires m.Valid()
    ensures (older + m.At(k)) + m.Younger(k) == older + m.Younger(k + 1)
  {
  }

  lemma NothingToRead(m: Image)
    ensures Readable(m, []) && Contents(m, []) == []
  {
  }

  lemma HandleYields(now: Image, past: Image, seen: map<Slot, Sight>, s: Slot)
    requires past.Valid() && Faithful(now, past, seen, s)
    ensures Readable(now, Handle(seen, s))
    ensures Contents(now, Handle(seen, s)) == past.At(s)
  {
    var here := Handle(seen, s);
    if here != [] { assert here[1..] == []; }
  }

  // When each name was opened, and when the size of what it named was read.
  datatype Moment = Moment(taken: nat, sized: nat)

  // What one pass over the names has seen by instant `last`.
  ghost predicate Gathering(at: History, from: nat, seen: map<Slot, Sight>, when: map<Slot, Moment>, last: nat)
  {
    && when.Keys == seen.Keys
    && forall s | s in seen :: Sighting(at, from, seen[s], when[s], s, last)
  }

  ghost predicate Sighting(at: History, from: nat, sight: Sight, m: Moment, s: Slot, last: nat)
  {
    && from <= m.taken <= m.sized <= last && s <= Copy(COPIES) && sight.bound == Bind(at(m.taken), s)
    && (sight.bound.Some? && sight.bound.value in at(m.sized).data ==>
          sight.size == |at(m.sized).data[sight.bound.value]|)
  }

  // The pass is complete: the copies oldest first, then the live file, then the
  // staged file if the live one was absent; the youngest was sized last.
  ghost predicate Complete(seen: map<Slot, Sight>, when: map<Slot, Moment>, last: nat)
  {
    && Copy(3) in when && Copy(2) in when && Copy(1) in when && LIVE in when && LIVE in seen
    && when[Copy(3)].taken <= when[Copy(2)].taken <= when[Copy(1)].taken <= when[LIVE].taken
    && (STAGING in when <==> seen[LIVE].bound.None?)
    && (STAGING in when ==> when[LIVE].taken <= when[STAGING].taken && when[STAGING].sized == last)
    && (STAGING !in when ==> when[LIVE].sized == last)
  }

  ghost function Looking(when: map<Slot, Moment>, checked: map<Slot, nat>): (l: Looks)
    requires checked.Keys == when.Keys
    ensures forall s :: s in l <==> s in when
    ensures forall s | s in l :: l[s] == Look(when[s].taken, checked[s])
  {
    map s | s in when :: Look(when[s].taken, checked[s])
  }

  ghost predicate Checked(at: History, seen: map<Slot, Sight>, checked: map<Slot, nat>, last: nat, to: nat)
  {
    checked.Keys == seen.Keys && forall s | s in seen :: last <= checked[s] <= to && Bind(at(checked[s]), s) == seen[s].bound
  }

  lemma CheckedIsAccepted(at: History, from: nat, seen: map<Slot, Sight>, when: map<Slot, Moment>, last: nat,
                          checked: map<Slot, nat>, to: nat)
    requires Gathering(at, from, seen, when, last) && Complete(seen, when, last) && from <= last <= to
    requires Checked(at, seen, checked, last, to)
    ensures Accepted(at, Looking(when, checked), from, last, to)
  {
    var l := Looking(when, checked);
    assert forall s | s in l :: Sighting(at, from, seen[s], when[s], s, last);
  }

  lemma SlotIsFaithful(at: History, from: nat, seen: map<Slot, Sight>, when: map<Slot, Moment>, last: nat,
                       checked: map<Slot, nat>, to: nat, s: Slot)
    requires Gathering(at, from, seen, when, last) && Complete(seen, when, last) && from <= last <= to
    requires Checked(at, seen, checked, last, to) && Steady(at, from, to) && s <= Copy(COPIES)
    ensures Faithful(at(to), at(last), seen, s)
  {
    CheckedIsAccepted(at, from, seen, when, last, checked, to);
    hide Steady, Accepted, Looking, Faithful;
    if s in seen {
      SeenIsFaithful(at, from, seen, when, last, checked, to, s);
    } else {
      assert when.Keys == seen.Keys && s !in when.Keys;
      UnseenIsStaging(seen, when, last, s);
      UnseenIsFaithful(at, from, seen, when, last, checked, to);
    }
  }

  lemma UnseenIsFaithful(at: History, from: nat, seen: map<Slot, Sight>, when: map<Slot, Moment>, last: nat,
                         checked: map<Slot, nat>, to: nat)
    requires checked.Keys == when.Keys == seen.Keys && STAGING !in seen && Steady(at, from, to)
    requires Accepted(at, Looking(when, checked), from, last, to)
    ensures Faithful(at(to), at(last), seen, STAGING)
  {
    hide Steady, Accepted, Looking;
    StagingIsFree(at, Looking(when, checked), from, last, to);
  }

  lemma UnseenIsStaging(seen: map<Slot, Sight>, when: map<Slot, Moment>, last: nat, s: Slot)
    requires Complete(seen, when, last) && s <= Copy(COPIES) && s !in when
    ensures s == STAGING
  {
  }

  lemma YoungestSizedLast(seen: map<Slot, Sight>, when: map<Slot, Moment>, last: nat, s: Slot)
    requires Complete(seen, when, last) && s in seen && s in when
    ensures s <= STAGING && seen[s].bound.Some? ==> when[s].sized == last
  {
  }

  lemma SeenIsFaithful(at: History, from: nat, seen: map<Slot, Sight>, when: map<Slot, Moment>, last: nat,
                       checked: map<Slot, nat>, to: nat, s: Slot)
    requires Gathering(at, from, seen, when, last) && Complete(seen, when, last) && from <= last <= to
    requires Checked(at, seen, checked, last, to) && Steady(at, from, to) && s in seen
    requires Accepted(at, Looking(when, checked), from, last, to)
    ensures Faithful(at(to), at(last), seen, s)
  {
    assert Sighting(at, from, seen[s], when[s], s, last);
    YoungestSizedLast(seen, when, last, s);
    var l := Looking(when, checked);
    assert s in when.Keys && l[s].seen == when[s].taken;
    hide Steady, Gathering, Complete, Checked, Accepted, Looking;
    SeenIsBound(at, l, from, last, to, s);
    SizeHolds(at, from, seen[s], when[s], s, last, to);
  }

  lemma SizeHolds(at: History, from: nat, sight: Sight, m: Moment, s: Slot, last: nat, to: nat)
    requires Sighting(at, from, sight, m, s, last) && Steady(at, from, to) && last <= to
    requires Bind(at(last), s) == sight.bound && (s <= STAGING && sight.bound.Some? ==> m.sized == last)
    ensures sight.bound.Some? ==>
      var f := sight.bound.value;
      f in at(to).data && f in at(last).data && sight.size == |at(last).data[f]| && at(last).data[f] <= at(to).data[f]
  {
    if sight.bound.Some? {
      var f := sight.bound.value;
      assert SoundAt(at, m.taken) && SoundAt(at, last);
      assert f in at(m.taken).data && f in at(last).data;
      if s > STAGING {
        assert Bind(at(m.taken), Copy(s - 1)) == Some(f);
      }
    }
  }

  // The list of files that a pass and its check accept yields, whenever it is read
  // later, exactly the log of one instant inside the call.
  lemma CheckedIsLog(at: History, from: nat, seen: map<Slot, Sight>, when: map<Slot, Moment>, last: nat,
                     checked: map<Slot, nat>, to: nat)
    requires Gathering(at, from, seen, when, last) && Complete(seen, when, last) && from <= last <= to
    requires Checked(at, seen, checked, last, to) && Steady(at, from, to)
    ensures IsLogAt(at(to), Gathered(seen, 0), at(last))
  {
    assert SoundAt(at, last) && at(last).Valid();
    hide Steady, Gathering, Complete, Checked, Faithful, SoundAt, IsLogAt, Gathered;
    forall s | 0 <= s < COPIES + 2
      ensures Faithful(at(to), at(last), seen, s)
    {
      SlotIsFaithful(at, from, seen, when, last, checked, to, s);
    }
    FaithfulIsLog(at(to), at(last), seen);
  }

  lemma FaithfulIsLog(now: Image, past: Image, seen: map<Slot, Sight>)
    requires past.Valid() && forall s | 0 <= s < COPIES + 2 :: Faithful(now, past, seen, s)
    ensures IsLogAt(now, Gathered(seen, 0), past)
  {
    hide Faithful, Gathered, Contents, FilesOnly, Readable;
    GatherFiles(now, past, seen, 0);
    GatherContents(now, past, seen, 0);
    assert Files(past, 0) == [] && past.Younger(0) == [];
    assert FilesOnly(Gathered(seen, 0)) + [] == FilesOnly(Gathered(seen, 0));
    assert Contents(now, Gathered(seen, 0)) + [] == Contents(now, Gathered(seen, 0));
  }

  // One pass over the names: the copies oldest first, then the live file, with the
  // staged file in the place of an absent one.
  method Pass(j: Journal) returns (ok: bool, seen: map<Slot, Sight>, ghost when: map<Slot, Moment>)
    modifies j
    ensures old(j.now) <= j.now
    ensures ok ==> Gathering(j.at, old(j.now), seen, when, j.now) && Complete(seen, when, j.now)
    ensures !ok ==> !Fair(j, old(j.now), j.now)
  {
    hide Fair, Complete, Sighting;
    seen, when := map[], map[];
    ghost var from := j.now;
    for index := 4 downto 1
      invariant from <= j.now && Gathering(j.at, from, seen, when, j.now)
      invariant forall k | index <= k <= 3 :: Copy(k) in when
      invariant forall k | k in when :: Copy(index) <= k
      invariant index <= 2 ==> when[Copy(3)].taken <= when[Copy(2)].taken
      invariant index <= 1 ==> when[Copy(2)].taken <= when[Copy(1)].taken
      invariant forall k | k in when :: when[k].taken <= j.now
    {
      ghost var before := j.now;
      ok, seen, when := LookOnce(j, from, seen, when, Copy(index));
      FairWithin(j, from, before, j.now, j.now);
      if !ok { return; }
    }
    ghost var before := j.now;
    ok, seen, when := PassLive(j, from, seen, when);
    FairWithin(j, from, before, j.now, j.now);
  }

  method LookOnce(j: Journal, ghost from: nat, seen: map<Slot, Sight>, ghost when: map<Slot, Moment>, s: Slot)
    returns (ok: bool, seen': map<Slot, Sight>, ghost when': map<Slot, Moment>)
    requires from <= j.now && Gathering(j.at, from, seen, when, j.now) && s <= Copy(COPIES) && s !in when
    modifies j
    ensures old(j.now) <= j.now && (!ok ==> !Fair(j, old(j.now), j.now))
    ensures ok ==> Gathering(j.at, from, seen', when', j.now)
    ensures ok ==> when'.Keys == when.Keys + {s} && old(j.now) <= when'[s].taken <= j.now
    ensures ok ==> forall k | k in when :: when'[k] == when[k]
  {
    var sight;
    ghost var t;
    ok, sight, t := j.Look(s);
    seen', when' := seen, when;
    if ok { seen', when' := seen[s := sight], when[s := Moment(t, j.now)]; }
  }

  lemma FairWithin(j: Journal, from: nat, a: nat, b: nat, to: nat)
    requires from <= a <= b <= to
    ensures Fair(j, from, to) ==> Fair(j, a, b)
  {
  }

  ghost predicate CopiesSeen(when: map<Slot, Moment>)
  {
    && Copy(3) in when && Copy(2) in when && Copy(1) in when && LIVE !in when && STAGING !in when
    && when[Copy(3)].taken <= when[Copy(2)].taken <= when[Copy(1)].taken
  }

  method PassLive(j: Journal, ghost from: nat, copies: map<Slot, Sight>, ghost times: map<Slot, Moment>)
    returns (ok: bool, seen: map<Slot, Sight>, ghost when: map<Slot, Moment>)
    requires Gathering(j.at, from, copies, times, j.now) && CopiesSeen(times)
    modifies j
    ensures old(j.now) <= j.now
    ensures !ok ==> !Fair(j, old(j.now), j.now)
    ensures ok ==> Gathering(j.at, from, seen, when, j.now) && Complete(seen, when, j.now)
  {
    assert Copy(1) in copies && times[Copy(1)].taken <= j.now && from <= j.now by {
      assert Sighting(j.at, from, copies[Copy(1)], times[Copy(1)], Copy(1), j.now);
    }
    seen, when := copies, times;
    var got, sight;
    ghost var t;
    got, sight, t := j.Look(LIVE);
    if !got { return false, seen, when; }
    seen, when := seen[LIVE := sight], when[LIVE := Moment(t, j.now)];
    if sight.bound.None? {
      var gotStaged, staged;
      ghost var u;
      ghost var before := j.now;
      gotStaged, staged, u := j.Look(STAGING);
      FairWithin(j, old(j.now), before, j.now, j.now);
      if !gotStaged { return false, seen, when; }
      seen, when := seen[STAGING := staged], when[STAGING := Moment(u, j.now)];
    }
    ok := true;
  }

  // Checks every name again, in any order.
  method Check(j: Journal, seen: map<Slot, Sight>) returns (same: bool, ghost checked: map<Slot, nat>)
    modifies j
    ensures old(j.now) <= j.now
    ensures same ==> Checked(j.at, seen, checked, old(j.now), j.now)
    ensures !same ==>
      !Fair(j, old(j.now), j.now) || exists s, t: nat :: old(j.now) <= t <= j.now && s in seen && Bind(j.at(t), s) != seen[s].bound
  {
    var left := seen.Keys;
    checked := map[];
    while left != {}
      invariant old(j.now) <= j.now && left <= seen.Keys && checked.Keys == seen.Keys - left
      invariant forall s | s in checked :: old(j.now) <= checked[s] <= j.now && Bind(j.at(checked[s]), s) == seen[s].bound
      decreases |left|
    {
      var s :| s in left;
      ghost var before := j.now;
      var ok := j.Same(s, seen[s].bound);
      FairWithin(j, old(j.now), before, j.now, j.now);
      if !ok { return false, checked; }
      checked := checked[s := j.now];
      left := left - {s};
    }
    same := true;
  }

  const ATTEMPTS := 5

  // The whole log of the instant, or that no file of it was left then.
  ghost predicate Faithfully(at: History, from: nat, now: nat, instant: nat, r: Result)
  {
    && (r.Snapshot? ==> from <= instant <= now && r.files != [] && IsLogAt(at(now), r.files, at(instant)))
    && (r.Missing? ==> from <= instant <= now && forall s | s <= Copy(COPIES) :: s !in at(instant).names)
  }

  // Pins a coherent set of files, or reports that there is none to pin. Whenever the
  // files are steady during the call, what is returned is the whole log of one instant
  // of the call; so it is whenever one rotation from the live path overlaps it, and
  // then the journal is never reported missing.
  method SnapshotFiles(j: Journal) returns (r: Result, ghost instant: nat)
    modifies j
    ensures old(j.now) <= j.now
    ensures Steady(j.at, old(j.now), j.now) ==> Faithfully(j.at, old(j.now), j.now, instant, r)
    // It gives up only for a call that failed, or after five attempts each spoilt by a
    // change of names.
    ensures r.OpenFailed? ==> !Fair(j, old(j.now), j.now)
    ensures r.Busy? && Fair(j, old(j.now), j.now) ==> Restless(j.at, old(j.now), j.now, 5)
    ensures forall round: Round, phase: nat -> nat
              | OneRotation(j.at, old(j.now), j.now, round, phase) && round.open == LIVE ::
      Faithfully(j.at, old(j.now), j.now, instant, r) && !r.Missing?
  {
    hide Faithfully, Steady, OneRotation, Fair, Restless;
    r, instant := TakeSnapshot(j);
    forall round: Round, phase: nat -> nat | OneRotation(j.at, old(j.now), j.now, round, phase) && round.open == LIVE
      ensures Faithfully(j.at, old(j.now), j.now, instant, r) && !r.Missing?
    {
      OneRotationIsSteady(j.at, old(j.now), j.now, round, phase);
      NeverMissing(j.at, old(j.now), j.now, instant, r, round, phase);
    }
  }

  // A rotation always leaves the open file a name.
  lemma NeverMissing(at: History, from: nat, now: nat, instant: nat, r: Result, round: Round, phase: nat -> nat)
    requires OneRotation(at, from, now, round, phase) && Faithfully(at, from, now, instant, r)
    ensures !r.Missing?
  {
    if from <= instant <= now {
      assert phase(instant) <= round.Steps();
      OpenIsNamed(round, phase(instant));
      hide OneRotation;
      var s :| 0 <= s < COPIES + 2 && BoundAfter(round, phase(instant), s) == Some(round.start.names[round.open]);
      OneRotationBinds(at, from, now, round, phase, instant, s);
      assert s in at(instant).names && s <= Copy(COPIES);
    }
  }

  lemma NotYetRestless(at: History, from: nat)
    ensures Restless(at, from, from, 0)
  {
  }

  // An attempt that is spoilt without a failing call saw a name change.
  lemma SpoiltByChange(j: Journal, from: nat, start: nat, seen: map<Slot, Sight>, when: map<Slot, Moment>, last: nat,
                       to: nat, n: nat)
    requires from <= start <= last <= to && Gathering(j.at, start, seen, when, last) && Restless(j.at, from, start, n)
    requires Complete(seen, when, last)
    requires exists s, t: nat :: last <= t <= to && s in seen && Bind(j.at(t), s) != seen[s].bound
    ensures Restless(j.at, from, to, n + 1)
  {
    hide Complete, Sighting;
    var s, t: nat :| last <= t <= to && s in seen && Bind(j.at(t), s) != seen[s].bound;
    SightedAt(j.at, start, seen[s], when[s], s, last);
    hide Bind;
    assert !Still(j.at, start, to);
  }

  lemma SightedAt(at: History, from: nat, sight: Sight, m: Moment, s: Slot, last: nat)
    requires Sighting(at, from, sight, m, s, last)
    ensures from <= m.taken <= last && s <= Copy(COPIES) && sight.bound == Bind(at(m.taken), s)
  {
  }

  method TakeSnapshot(j: Journal) returns (r: Result, ghost instant: nat)
    modifies j
    ensures old(j.now) <= j.now
    ensures Steady(j.at, old(j.now), j.now) ==> Faithfully(j.at, old(j.now), j.now, instant, r)
    ensures r.OpenFailed? ==> !Fair(j, old(j.now), j.now)
    ensures r.Busy? && Fair(j, old(j.now), j.now) ==> Restless(j.at, old(j.now), j.now, 5)
  {
    hide Restless, Fair, Steady, Faithfully;
    ghost var from := j.now;
    NotYetRestless(j.at, from);
    for attempt := 0 to ATTEMPTS
      invariant from <= j.now && (Fair(j, from, j.now) ==> Restless(j.at, from, j.now, attempt))
    {
      if attempt > 0 { Pause(j, from, attempt); }
      var settled;
      settled, r, instant := Attempt(j, from, attempt);
      if settled { return; }
    }
    r, instant := Busy, from;
    BusyIsFaithful(j.at, from, j.now, instant);
  }

  lemma BusyIsFaithful(at: History, from: nat, now: nat, instant: nat)
    ensures Faithfully(at, from, now, instant, Busy) && Faithfully(at, from, now, instant, OpenFailed)
  {
  }

  method Pause(j: Journal, ghost from: nat, ghost n: nat)
    requires from <= j.now && (Fair(j, from, j.now) ==> Restless(j.at, from, j.now, n))
    modifies j
    ensures old(j.now) <= j.now && (Fair(j, from, j.now) ==> Restless(j.at, from, j.now, n))
  {
    hide Restless, Fair;
    ghost var before := j.now;
    j.Advance();
    FairWithin(j, from, from, before, j.now);
    if Fair(j, from, before) { RestlessLater(j.at, from, before, j.now, n); }
  }

  // One attempt: a list that held still, a call that failed, or one more change.
  method Attempt(j: Journal, ghost from: nat, ghost n: nat) returns (settled: bool, r: Result, ghost instant: nat)
    requires from <= j.now && (Fair(j, from, j.now) ==> Restless(j.at, from, j.now, n))
    modifies j
    ensures old(j.now) <= j.now
    ensures settled ==> !r.Busy? && (r.OpenFailed? ==> !Fair(j, from, j.now))
    ensures settled && Steady(j.at, from, j.now) ==> Faithfully(j.at, from, j.now, instant, r)
    ensures !settled ==> Fair(j, from, j.now) ==> Restless(j.at, from, j.now, n + 1)
  {
    hide Still, Restless, Fair, Steady, Gathering, Complete, Checked, IsLogAt;
    ghost var start := j.now;
    var ok, seen;
    ghost var when;
    ok, seen, when := Pass(j);
    FairWithin(j, from, start, j.now, j.now);
    if !ok { return true, OpenFailed, start; }
    ghost var last := j.now;
    var same;
    ghost var checked;
    same, checked := Check(j, seen);
    if same {
      var files := Gathered(seen, 0);
      if Steady(j.at, from, j.now) { PassIsLog(j.at, from, start, seen, when, last, checked, j.now); }
      return true, if files == [] then Missing else Snapshot(files), last;
    }
    FairWithin(j, from, last, j.now, j.now);
    FairWithin(j, from, from, start, j.now);
    if Fair(j, from, j.now) { SpoiltByChange(j, from, start, seen, when, last, j.now, n); }
    settled, r, instant := false, Busy, start;
  }

  lemma PassIsLog(at: History, from: nat, start: nat, seen: map<Slot, Sight>, when: map<Slot, Moment>, last: nat,
                  checked: map<Slot, nat>, to: nat)
    requires from <= start <= last <= to && Gathering(at, start, seen, when, last) && Complete(seen, when, last)
    requires Checked(at, seen, checked, last, to) && Steady(at, from, to)
    ensures IsLogAt(at(to), Gathered(seen, 0), at(last))
    ensures Gathered(seen, 0) == [] ==> forall s | s <= Copy(COPIES) :: s !in at(last).names
  {
    forall s | s in seen
      ensures Sighting(at, from, seen[s], when[s], s, last)
    {
      assert Sighting(at, start, seen[s], when[s], s, last);
    }
    hide Steady, Complete, Checked, Sighting;
    CheckedIsLog(at, from, seen, when, last, checked, to);
    if Gathered(seen, 0) == [] { NoFiles(at(last), COPIES + 2); }
  }

  lemma {:induction false} NoFiles(m: Image, k: nat)
    requires Files(m, k) == []
    ensures forall s | 0 <= s < k :: s !in m.names
  {
    if k > 0 { NoFiles(m, k - 1); }
  }
}
