/**
 Bounded, resumable pages of the journal (internal/logs/query.go).

 The journal here is the fixed contents of the files a snapshot pinned. A record's
 encoded size is any function that does not grow when the line is cut between
 characters; which events match is any predicate.
 */
module Query {
  import opened Wrappers
  import opened Bytes
  import opened Windows
  import Utf8

  datatype Event = Event(id: string, run: string, sequence: nat, line: seq<Byte>, originalBytes: nat, truncated: bool,
                         hasState: bool, fields: seq<string>)

  // A complete line of the journal: an event, or one that cannot be read as one.
  datatype Record = Entry(event: Event) | Broken

  datatype Ask = Ask(limit: nat, maxBytes: nat, wanted: Event -> bool, size: Event -> nat)

  const FLOOR := 1024

  ghost predicate Bounded(a: Ask)
  {
    1 <= a.limit <= 1000 && FLOOR <= a.maxBytes <= 1048576 && CutsShrink(a.size)
  }

  ghost predicate CutsShrink(size: Event -> nat)
  {
    forall e: Event, m: seq<Byte>, j: nat, k: nat | j <= k <= |m| && Utf8.Valid(m[..j]) && Utf8.Valid(m[..k]) ::
      size(e.(line := m[..j])) <= size(e.(line := m[..k]))
  }

  // ── fitting one event ───────────────────────────────────────────────────────

  // A query's copy of an event that is too large keeps its identity and loses its
  // state and the end of its line.
  function Shortened(e: Event): Event
  {
    e.(truncated := true, originalBytes := if e.originalBytes == 0 then |e.line| else e.originalBytes, hasState := false)
  }

  function Cut(e: Event, n: nat): Event
    requires n <= |e.line|
  {
    Shortened(e).(line := e.line[..Utf8.TrimmedTo(e.line, n)])
  }

  ghost function Largest(e: Event, budget: nat, size: Event -> nat, n: nat): (k: nat)
    requires n <= |e.line| && size(Cut(e, 0)) <= budget
    ensures k <= n && size(Cut(e, k)) <= budget && forall j | k < j <= n :: size(Cut(e, j)) > budget
  {
    if size(Cut(e, n)) <= budget then n else Largest(e, budget, size, n - 1)
  }

  ghost function Fitted(e: Event, budget: nat, size: Event -> nat): Option<(Event, nat)>
  {
    if size(e) <= budget then Some((e, size(e)))
    else if size(Cut(e, 0)) > budget then None
    else var c := Cut(e, Largest(e, budget, size, |e.line|)); Some((c, size(c)))
  }

  lemma CutMonotone(e: Event, size: Event -> nat, j: nat, k: nat)
    requires CutsShrink(size) && j <= k <= |e.line|
    ensures size(Cut(e, j)) <= size(Cut(e, k))
  {
    Utf8.TrimMonotone(e.line, j, k);
    var a, b := Utf8.TrimmedTo(e.line, j), Utf8.TrimmedTo(e.line, k);
    assert size(Shortened(e).(line := e.line[..a])) <= size(Shortened(e).(line := e.line[..b]));
  }

  // The line is cut at a character, and every later place to cut it is too late.
  ghost predicate CutLate(e: Event, c: Event, budget: nat, size: Event -> nat)
  {
    && c.truncated && !c.hasState && c.originalBytes == (if e.originalBytes == 0 then |e.line| else e.originalBytes)
    && c == e.(line := c.line, truncated := c.truncated, hasState := c.hasState, originalBytes := c.originalBytes)
    && c.line <= e.line && Utf8.Valid(c.line)
    && forall j | |c.line| < j <= |e.line| && Utf8.Valid(e.line[..j]) :: size(c.(line := e.line[..j])) > budget
  }

  // What fits keeps the event's identity, and its line is the longest well-formed
  // prefix that fits: no character is split and nothing that would fit is lost.
  lemma FittedIsLongest(e: Event, budget: nat, size: Event -> nat)
    requires Fitted(e, budget, size).Some?
    ensures var (c, n) := Fitted(e, budget, size).value;
      n == size(c) <= budget && c.id == e.id && if size(e) <= budget then c == e else CutLate(e, c, budget, size)
  {
    if size(e) > budget {
      var k := Largest(e, budget, size, |e.line|);
      forall j | |Cut(e, k).line| < j <= |e.line| && Utf8.Valid(e.line[..j])
        ensures size(Cut(e, k).(line := e.line[..j])) > budget
      {
        TrimOfValid(e.line, j);
        assert Cut(e, k).(line := e.line[..j]) == Shortened(e).(line := e.line[..j]);
        assert j > k ==> size(Cut(e, j)) > budget;
      }
    }
  }

  lemma TrimOfValid(s: seq<Byte>, n: nat)
    requires n <= |s| && Utf8.Valid(s[..n])
    ensures Utf8.TrimmedTo(s, n) == n
  {
  }

  // The binary search for the longest line that fits.
  method Fit(e: Event, budget: nat, size: Event -> nat) returns (r: Option<(Event, nat)>)
    requires CutsShrink(size)
    ensures r == Fitted(e, budget, size)
  {
    hide CutsShrink;
    if size(e) <= budget { return Some((e, size(e))); }
    var event := Shortened(e);
    var message := e.line;
    var low: nat, high: nat := 0, |message|;
    while low < high
      invariant low <= high <= |message| && event == Shortened(e).(line := event.line) && (low > 0 ==> size(Cut(e, low)) <= budget)
      invariant forall j: nat | high < j <= |message| :: size(Cut(e, j)) > budget
    {
      var middle := (low + high + 1) / 2;
      event := Trimmed(e, event, middle);
      if size(event) <= budget {
        low := middle;
      } else {
        forall j: nat | middle <= j <= |message|
          ensures size(Cut(e, j)) > budget
        {
          CutMonotone(e, size, middle, j);
        }
        high := middle - 1;
      }
    }
    event := Trimmed(e, event, low);
    CutMonotone(e, size, 0, low);
    assert low == 0 || size(Cut(e, low)) <= budget;
    if size(event) > budget { return None; }
    LargestUnique(e, budget, size, |message|, low);
    r := Some((event, size(event)));
  }

  lemma LargestUnique(e: Event, budget: nat, size: Event -> nat, n: nat, k: nat)
    requires k <= n <= |e.line| && size(Cut(e, 0)) <= budget && size(Cut(e, k)) <= budget
    requires forall j | k < j <= n :: size(Cut(e, j)) > budget
    ensures Largest(e, budget, size, n) == k
  {
  }

  method Trimmed(e: Event, event: Event, n: nat) returns (c: Event)
    requires n <= |e.line| && event == Shortened(e).(line := event.line)
    ensures c == Cut(e, n)
  {
    var line := Utf8.Trim(e.line[..n]);
    TrimOfPrefix(e.line, n);
    c := event.(line := line);
  }

  lemma {:induction false} TrimOfPrefix(s: seq<Byte>, n: nat)
    requires n <= |s|
    ensures Utf8.TrimmedTo(s[..n], n) == Utf8.TrimmedTo(s, n) && s[..n][..Utf8.TrimmedTo(s, n)] == s[..Utf8.TrimmedTo(s, n)]
  {
    var k, l := Utf8.TrimmedTo(s[..n], n), Utf8.TrimmedTo(s, n);
    assert forall j | 0 <= j <= n :: s[..n][..j] == s[..j];
    assert Utf8.Valid(s[..n][..k]) && Utf8.Valid(s[..l]);
  }

  // ── forward pages ───────────────────────────────────────────────────────────

  datatype Error = BadLimits | BadCursor | BadRecord | MetadataTooLarge

  datatype Outcome = Stopped(stop: nat, more: bool, got: seq<Event>, bytes: nat) | Erred(error: Error)

  // Reads on from record i with what was taken so far. A page ends before a matching
  // event that the count leaves no room for, or the bytes none worth using.
  ghost function Forward(recs: seq<Record>, i: nat, a: Ask, got: seq<Event>, bytes: nat): Outcome
    requires i <= |recs|
    decreases |recs| - i
  {
    if i == |recs| then Stopped(i, false, got, bytes)
    else if recs[i].Broken? then Erred(BadRecord)
    else if !a.wanted(recs[i].event) then Forward(recs, i + 1, a, got, bytes)
    else if |got| == a.limit || (a.maxBytes < bytes + FLOOR && got != []) then Stopped(i, true, got, bytes)
    else if a.maxBytes < bytes then Erred(MetadataTooLarge)
    else
      var f := Fitted(recs[i].event, a.maxBytes - bytes, a.size);
      if f.None? then Erred(MetadataTooLarge)
      else Forward(recs, i + 1, a, got + [f.value.0], bytes + f.value.1)
  }

  // The matching events from record i on.
  ghost function Matching(recs: seq<Record>, i: nat, a: Ask): seq<Event>
    requires i <= |recs|
    decreases |recs| - i
  {
    if i == |recs| then []
    else if recs[i].Entry? && a.wanted(recs[i].event) then [recs[i].event] + Matching(recs, i + 1, a)
    else Matching(recs, i + 1, a)
  }

  function Ids(es: seq<Event>): (r: seq<string>)
    ensures |r| == |es| && forall i | 0 <= i < |es| :: r[i] == es[i].id
  {
    seq(|es|, i requires 0 <= i < |es| => es[i].id)
  }

  ghost function Weight(es: seq<Event>, size: Event -> nat): nat
  {
    if es == [] then 0 else Weight(es[..|es| - 1], size) + size(es[|es| - 1])
  }

  // Every record can be read, and no event's metadata is larger than a page's floor.
  ghost predicate Readable(recs: seq<Record>, a: Ask)
  {
    forall r | r in recs :: r.Entry? && a.size(Cut(r.event, 0)) <= FLOOR
  }

  // A page under way is within its limits and is worth adding to.
  ghost predicate UnderWay(a: Ask, got: seq<Event>, bytes: nat)
  {
    |got| <= a.limit && bytes <= a.maxBytes && bytes == Weight(got, a.size)
  }

  lemma FitsSomehow(e: Event, budget: nat, size: Event -> nat)
    requires CutsShrink(size) && size(Cut(e, 0)) <= FLOOR <= budget
    ensures Fitted(e, budget, size).Some?
    ensures var (c, n) := Fitted(e, budget, size).value; n == size(c) <= budget && c.id == e.id
  {
    FittedIsLongest(e, budget, size);
  }

  // The outcome took the next matching events, in order and without a gap, within
  // both limits; it says there is more exactly when a matching event is left, and
  // stopped right before it.
  ghost predicate Takes(recs: seq<Record>, i: nat, a: Ask, got: seq<Event>, o: Outcome)
    requires i <= |recs|
  {
    && o.Stopped? && i <= o.stop <= |recs| && got <= o.got && UnderWay(a, o.got, o.bytes)
    && Ids(Matching(recs, i, a)) == Ids(o.got[|got|..]) + Ids(Matching(recs, o.stop, a))
    && (o.more <==> Matching(recs, o.stop, a) != []) && (!o.more ==> o.stop == |recs|)
    && (o.more ==> o.got != [] && (|o.got| == a.limit || a.maxBytes < o.bytes + FLOOR))
    && (o.more && got == [] ==> i < o.stop)
  }

  lemma StaysUnderWay(a: Ask, got: seq<Event>, bytes: nat, c: Event)
    requires UnderWay(a, got, bytes) && |got| < a.limit && bytes + a.size(c) <= a.maxBytes
    ensures UnderWay(a, got + [c], bytes + a.size(c))
  {
    assert (got + [c])[..|got|] == got;
  }

  lemma TakesNothing(recs: seq<Record>, i: nat, a: Ask, got: seq<Event>, bytes: nat)
    requires i <= |recs| && UnderWay(a, got, bytes)
    requires i < |recs| ==>
      && recs[i].Entry? && a.wanted(recs[i].event) && got != []
      && (|got| == a.limit || a.maxBytes < bytes + FLOOR)
    ensures Takes(recs, i, a, got, Stopped(i, i < |recs|, got, bytes))
  {
    assert got[|got|..] == [] && Ids([]) == [];
  }

  lemma TakesPast(recs: seq<Record>, i: nat, a: Ask, got: seq<Event>, o: Outcome)
    requires i < |recs| && recs[i].Entry? && !a.wanted(recs[i].event) && Takes(recs, i + 1, a, got, o)
    ensures Takes(recs, i, a, got, o)
  {
  }

  lemma TakesOne(recs: seq<Record>, i: nat, a: Ask, got: seq<Event>, c: Event, o: Outcome)
    requires i < |recs| && recs[i].Entry? && a.wanted(recs[i].event) && c.id == recs[i].event.id
    requires Takes(recs, i + 1, a, got + [c], o)
    ensures Takes(recs, i, a, got, o)
  {
    var e, rest := recs[i].event, o.got[|got| + 1..];
    assert |got + [c]| == |got| + 1;
    assert o.got[|got|..] == [c] + rest by { assert (got + [c])[|got|] == c == o.got[|got|]; }
    assert got <= o.got by { assert o.got[..|got|] == (got + [c])[..|got|] == got; }
    hide Forward;
    IdsJoin([c], rest);
    IdsJoin([e], Matching(recs, i + 1, a));
    assert Ids([c]) == Ids([e]);
    assert (Ids([c]) + Ids(rest)) + Ids(Matching(recs, o.stop, a)) == Ids([c]) + (Ids(rest) + Ids(Matching(recs, o.stop, a)));
  }

  lemma {:induction false} ForwardTakes(recs: seq<Record>, i: nat, a: Ask, got: seq<Event>, bytes: nat)
    requires i <= |recs| && Bounded(a) && Readable(recs, a) && UnderWay(a, got, bytes)
    ensures Takes(recs, i, a, got, Forward(recs, i, a, got, bytes))
    decreases |recs| - i, 1
  {
    hide Fitted, Bounded, Readable, Takes, UnderWay, Forward, CutsShrink;
    LimitPositive(a);
    WithinLimits(recs, i, a, got, bytes);
    if i == |recs| {
      TakesNothing(recs, i, a, got, bytes);
    } else {
      var e := EventAt(recs, i, a);
      ForwardStep(recs, i, a, got, bytes, e);
      if !a.wanted(e) {
        ForwardTakes(recs, i + 1, a, got, bytes);
        TakesPast(recs, i, a, got, Forward(recs, i + 1, a, got, bytes));
      } else if |got| == a.limit || (a.maxBytes < bytes + FLOOR && got != []) {
        TakesNothing(recs, i, a, got, bytes);
      } else {
        ForwardTakesOne(recs, i, a, got, bytes, e);
      }
    }
  }

  lemma WithinLimits(recs: seq<Record>, i: nat, a: Ask, got: seq<Event>, bytes: nat)
    requires UnderWay(a, got, bytes) && i <= |recs|
    ensures |got| <= a.limit && bytes <= a.maxBytes && (got == [] ==> bytes == 0)
    ensures i == |recs| ==> Forward(recs, i, a, got, bytes) == Stopped(i, false, got, bytes)
  {
  }

  lemma {:induction false} ForwardTakesOne(recs: seq<Record>, i: nat, a: Ask, got: seq<Event>, bytes: nat, e: Event)
    requires i < |recs| && Bounded(a) && Readable(recs, a) && UnderWay(a, got, bytes)
    requires recs[i] == Entry(e) && a.wanted(e) && |got| < a.limit && bytes + FLOOR <= a.maxBytes
    ensures Takes(recs, i, a, got, Forward(recs, i, a, got, bytes))
    decreases |recs| - i, 0
  {
    hide Fitted, Bounded, Readable, Takes, UnderWay, Forward;
    ForwardStep(recs, i, a, got, bytes, e);
    RoomFor(recs, i, a, a.maxBytes - bytes);
    var (c, n) := Fitted(e, a.maxBytes - bytes, a.size).value;
    StaysUnderWay(a, got, bytes, c);
    ForwardTakes(recs, i + 1, a, got + [c], bytes + n);
    TakesOne(recs, i, a, got, c, Forward(recs, i + 1, a, got + [c], bytes + n));
  }

  lemma IdsJoin(a: seq<Event>, b: seq<Event>)
    ensures Ids(a + b) == Ids(a) + Ids(b)
  {
  }

  lemma LimitPositive(a: Ask)
    requires Bounded(a)
    ensures a.limit >= 1 && a.maxBytes >= FLOOR
  {
  }

  lemma EventAt(recs: seq<Record>, i: nat, a: Ask) returns (e: Event)
    requires i < |recs| && Readable(recs, a)
    ensures recs[i] == Entry(e)
  {
    assert recs[i] in recs;
    e := recs[i].event;
  }

  // Whatever the records are, a page keeps within both limits, counts the bytes of its
  // events, and says there is more only when it is full.
  lemma {:induction false} ForwardWithin(recs: seq<Record>, i: nat, a: Ask, got: seq<Event>, bytes: nat)
    requires i <= |recs| && UnderWay(a, got, bytes)
    ensures var o := Forward(recs, i, a, got, bytes);
      o.Stopped? ==> UnderWay(a, o.got, o.bytes) && (o.more ==> |o.got| == a.limit || a.maxBytes < o.bytes + FLOOR)
    decreases |recs| - i
  {
    hide Fitted;
    if i < |recs| && recs[i].Entry? {
      var e := recs[i].event;
      if !a.wanted(e) {
        ForwardWithin(recs, i + 1, a, got, bytes);
      } else if |got| != a.limit && (bytes + FLOOR <= a.maxBytes || got == []) {
        var f := Fitted(e, a.maxBytes - bytes, a.size);
        if f.Some? {
          FittedIsLongest(e, a.maxBytes - bytes, a.size);
          StaysUnderWay(a, got, bytes, f.value.0);
          ForwardWithin(recs, i + 1, a, got + [f.value.0], bytes + f.value.1);
        }
      }
    }
  }

  // One record read, by its cases.
  lemma ForwardStep(recs: seq<Record>, i: nat, a: Ask, got: seq<Event>, bytes: nat, e: Event)
    requires i < |recs| && recs[i] == Entry(e) && bytes <= a.maxBytes
    ensures !a.wanted(e) ==> Forward(recs, i, a, got, bytes) == Forward(recs, i + 1, a, got, bytes)
    ensures a.wanted(e) && (|got| == a.limit || (a.maxBytes < bytes + FLOOR && got != [])) ==>
      Forward(recs, i, a, got, bytes) == Stopped(i, true, got, bytes)
    ensures
      a.wanted(e) && |got| != a.limit && (a.maxBytes >= bytes + FLOOR || got == [])
      && Fitted(e, a.maxBytes - bytes, a.size).Some? ==>
        var (c, n) := Fitted(e, a.maxBytes - bytes, a.size).value;
        Forward(recs, i, a, got, bytes) == Forward(recs, i + 1, a, got + [c], bytes + n)
    ensures
      a.wanted(e) && |got| != a.limit && (a.maxBytes >= bytes + FLOOR || got == [])
      && Fitted(e, a.maxBytes - bytes, a.size).None? ==>
        Forward(recs, i, a, got, bytes) == Erred(MetadataTooLarge)
  {
  }

  lemma RoomFor(recs: seq<Record>, i: nat, a: Ask, budget: nat)
    requires i < |recs| && Readable(recs, a) && recs[i].Entry? && Bounded(a) && budget >= FLOOR
    ensures Fitted(recs[i].event, budget, a.size).Some?
    ensures var (c, n) := Fitted(recs[i].event, budget, a.size).value;
      n == a.size(c) <= budget && c.id == recs[i].event.id
  {
    assert recs[i] in recs;
    FitsSomehow(recs[i].event, budget, a.size);
  }

  // ── following the cursor ────────────────────────────────────────────────────

  const START := "start"

  // "run:sequence", the form of every event's ID.
  predicate ValidCursor(s: string)
  {
    exists i :: 0 < i < |s| && s[i] == ':' && ':' !in s[..i] && Number(s[i + 1..])
  }

  predicate Number(s: string)
  {
    s != [] && (forall i | 0 <= i < |s| :: '0' <= s[i] <= '9') && Decimal(s) < 0x1_0000_0000_0000_0000
  }

  function Decimal(s: string): nat
    requires forall i | 0 <= i < |s| :: '0' <= s[i] <= '9'
  {
    if s == [] then 0 else Decimal(s[..|s| - 1]) * 10 + (s[|s| - 1] as nat - '0' as nat)
  }

  // Where a cursor resumes: at the first record, or after the event it names.
  ghost function Resume(recs: seq<Record>, after: string, i: nat): (r: Option<nat>)
    requires i <= |recs|
    ensures r.Some? ==> r.value <= |recs|
    decreases |recs| - i
  {
    if after == "" || after == START then Some(0)
    else if i == |recs| then None
    else if recs[i].Entry? && recs[i].event.id == after then Some(i + 1)
    else Resume(recs, after, i + 1)
  }

  // Events carry distinct IDs of the cursor's form.
  ghost predicate Identified(recs: seq<Record>)
  {
    && (forall i | 0 <= i < |recs| && recs[i].Entry? :: ValidCursor(recs[i].event.id))
    && forall i, j | 0 <= i < j < |recs| && recs[i].Entry? && recs[j].Entry? :: recs[i].event.id != recs[j].event.id
  }

  // The cursor a page hands out: the last event read, or what it was asked with.
  ghost function NextCursor(recs: seq<Record>, after: string, pos: nat, stop: nat): string
    requires stop <= |recs|
  {
    if pos < stop && recs[stop - 1].Entry? then recs[stop - 1].event.id else if after == START then "" else after
  }

  lemma {:induction false} ResumeFinds(recs: seq<Record>, i: nat, k: nat)
    requires i <= k < |recs| && Identified(recs) && recs[k].Entry?
    ensures Resume(recs, recs[k].event.id, i) == Some(k + 1)
    decreases |recs| - i
  {
    assert ValidCursor(recs[k].event.id);
    assert ':' !in START && ':' in recs[k].event.id;
    hide ValidCursor;
    if i < k { ResumeFinds(recs, i + 1, k); }
  }

  ghost function Position(recs: seq<Record>, after: string): nat
  {
    var pos := Resume(recs, after, 0);
    if pos.Some? then pos.value else |recs|
  }

  // The events of every page, from a cursor on, each page asked for with the cursor
  // the one before handed out, for as long as that cursor is ahead.
  ghost function Follow(recs: seq<Record>, after: string, a: Ask): seq<Event>
    decreases |recs| - Position(recs, after)
  {
    var pos := Position(recs, after);
    var o := Forward(recs, pos, a, [], 0);
    if o.Erred? then []
    else if !o.more || o.stop > |recs| then o.got
    else
      var next := NextCursor(recs, after, pos, o.stop);
      if Position(recs, next) <= pos then o.got else o.got + Follow(recs, next, a)
  }

  // Following the cursor yields exactly the matching events that were ahead of it,
  // in order, each once, and ends.
  lemma {:induction false} FollowIsMatching(recs: seq<Record>, after: string, a: Ask)
    requires Bounded(a) && Readable(recs, a) && Identified(recs) && Resume(recs, after, 0).Some?
    ensures Ids(Follow(recs, after, a)) == Ids(Matching(recs, Resume(recs, after, 0).value, a))
    decreases |recs| - Position(recs, after)
  {
    hide Bounded, Identified, Readable, Forward, Matching, Follow, UnderWay, Ids, NextCursor, Takes, Resume;
    var pos := Position(recs, after);
    FollowStep(recs, after, a, pos);
    NothingAtEnd(recs, a);
    var o := PageAhead(recs, pos, a);
    if o.more {
      var next := NextPosition(recs, after, a, pos, o.stop);
      FollowIsMatching(recs, next, a);
      IdsJoin(o.got, Follow(recs, next, a));
    }
  }

  // The page asked for at a position, and what it leaves.
  lemma PageAhead(recs: seq<Record>, pos: nat, a: Ask) returns (o: Outcome)
    requires pos <= |recs| && Bounded(a) && Readable(recs, a)
    ensures o == Forward(recs, pos, a, [], 0) && o.Stopped? && o.stop <= |recs| && (!o.more ==> o.stop == |recs|)
    ensures o.more ==> pos < o.stop && recs[o.stop - 1].Entry?
    ensures Ids(Matching(recs, pos, a)) == Ids(o.got) + Ids(Matching(recs, o.stop, a))
  {
    o := Forward(recs, pos, a, [], 0);
    assert UnderWay(a, [], 0);
    hide Bounded, Forward, Matching, UnderWay, Ids;
    ForwardTakes(recs, pos, a, [], 0);
    assert o.got[0..] == o.got;
    if o.more { assert recs[o.stop - 1] in recs; }
  }

  // The cursor of a page that is not the last resumes right after it.
  lemma NextPosition(recs: seq<Record>, after: string, a: Ask, pos: nat, stop: nat) returns (next: string)
    requires Identified(recs) && pos < stop <= |recs| && recs[stop - 1].Entry?
    ensures next == NextCursor(recs, after, pos, stop)
    ensures Resume(recs, next, 0) == Some(stop) && Position(recs, next) == stop
  {
    next := NextCursor(recs, after, pos, stop);
    hide Identified, Resume;
    ResumeFinds(recs, 0, stop - 1);
  }

  lemma NothingAtEnd(recs: seq<Record>, a: Ask)
    ensures Ids(Matching(recs, |recs|, a)) == []
  {
  }

  lemma FollowStep(recs: seq<Record>, after: string, a: Ask, pos: nat)
    requires pos == Position(recs, after)
    ensures var o := Forward(recs, pos, a, [], 0);
      && (o.Stopped? && !o.more ==> Follow(recs, after, a) == o.got)
      && (o.Stopped? && o.more && o.stop <= |recs| && pos < Position(recs, NextCursor(recs, after, pos, o.stop)) ==>
            Follow(recs, after, a) == o.got + Follow(recs, NextCursor(recs, after, pos, o.stop), a))
  {
  }

  // From the start every matching event is read, once and in order.
  lemma FollowFromStart(recs: seq<Record>, a: Ask)
    requires Bounded(a) && Readable(recs, a) && Identified(recs)
    ensures Ids(Follow(recs, START, a)) == Ids(Matching(recs, 0, a))
  {
    assert Resume(recs, START, 0) == Some(0);
    hide Bounded, Readable, Identified, Follow, Matching, Resume;
    FollowIsMatching(recs, START, a);
  }

  // ── tail pages ──────────────────────────────────────────────────────────────

  // The matching events of records [i, k), each fitted to the whole budget; nothing
  // when one cannot be.
  ghost function FittedAll(recs: seq<Record>, i: nat, k: nat, a: Ask): Option<seq<(Event, nat)>>
    requires i <= k <= |recs|
  {
    if i == k then Some([])
    else
      var before := FittedAll(recs, i, k - 1, a);
      if before.None? || recs[k - 1].Broken? then None
      else if !a.wanted(recs[k - 1].event) then before
      else
        var f := Fitted(recs[k - 1].event, a.maxBytes, a.size);
        if f.None? then None else Some(before.value + [f.value])
  }

  function Firsts(ps: seq<(Event, nat)>): (r: seq<Event>)
    ensures |r| == |ps| && forall i | 0 <= i < |ps| :: r[i] == ps[i].0
  {
    seq(|ps|, i requires 0 <= i < |ps| => ps[i].0)
  }

  function Seconds(ps: seq<(Event, nat)>): (r: seq<nat>)
    ensures |r| == |ps| && forall i | 0 <= i < |ps| :: r[i] == ps[i].1
  {
    seq(|ps|, i requires 0 <= i < |ps| => ps[i].1)
  }

  // The newest matching events, as many as both limits allow.
  ghost predicate Newest(ps: seq<(Event, nat)>, a: Ask, events: seq<Event>, bytes: nat)
  {
    exists k: nat :: Longest(Seconds(ps), a.limit, a.maxBytes, k) && events == Firsts(Last(ps, k))
                     && bytes == Sum(Last(Seconds(ps), k))
  }

  // A page under way holds the newest of ps.
  ghost predicate Windowed(ps: seq<(Event, nat)>, events: seq<Event>, sizes: seq<nat>, bytes: nat)
  {
    && |events| == |sizes| <= |ps| && events == Firsts(Last(ps, |events|)) && sizes == Seconds(Last(ps, |events|))
    && bytes == Sum(sizes)
  }

  lemma WindowGrows(ps: seq<(Event, nat)>, events: seq<Event>, sizes: seq<nat>, bytes: nat, c: Event, n: nat)
    requires Windowed(ps, events, sizes, bytes)
    ensures Windowed(ps + [(c, n)], events + [c], sizes + [n], bytes + n)
    ensures Seconds(ps + [(c, n)]) == Seconds(ps) + [n]
  {
    SumSnoc(sizes, n);
  }

  lemma WindowShrinks(ps: seq<(Event, nat)>, events: seq<Event>, sizes: seq<nat>, bytes: nat)
    requires Windowed(ps, events, sizes, bytes) && events != []
    ensures sizes[0] <= bytes && Windowed(ps, events[1..], sizes[1..], bytes - sizes[0])
  {
  }

  // A window over a limit does not fit, and is more than the newest event.
  lemma WindowTooLarge(ps: seq<(Event, nat)>, events: seq<Event>, sizes: seq<nat>, bytes: nat, a: Ask)
    requires Windowed(ps, events, sizes, bytes) && (|events| > a.limit || bytes > a.maxBytes)
    requires ps != [] && ps[|ps| - 1].1 <= a.maxBytes && a.limit >= 1
    ensures !Fits(Seconds(ps), a.limit, a.maxBytes, |events|) && |events| > 1
  {
    assert Last(Seconds(ps), |events|) == sizes;
    var x := ps[|ps| - 1].1;
    SumSnoc([], x);
    assert [] + [x] == [x];
    assert |events| == 1 ==> sizes == [x];
  }

  lemma WindowFits(ps: seq<(Event, nat)>, events: seq<Event>, sizes: seq<nat>, bytes: nat, a: Ask)
    requires Windowed(ps, events, sizes, bytes) && |events| <= a.limit && bytes <= a.maxBytes
    ensures Fits(Seconds(ps), a.limit, a.maxBytes, |events|)
  {
    assert Last(Seconds(ps), |events|) == sizes;
  }

  // The tail window: one more event in, the oldest out while the page is too large.
  method SlideIn(ghost ps: seq<(Event, nat)>, events: seq<Event>, sizes: seq<nat>, bytes: nat, c: Event, n: nat, a: Ask)
    returns (events': seq<Event>, sizes': seq<nat>, bytes': nat, dropped: bool)
    requires a.limit >= 1 && n <= a.maxBytes && Windowed(ps, events, sizes, bytes)
    requires Longest(Seconds(ps), a.limit, a.maxBytes, |events|)
    ensures Windowed(ps + [(c, n)], events', sizes', bytes')
    ensures Longest(Seconds(ps + [(c, n)]), a.limit, a.maxBytes, |events'|)
    ensures |events'| <= |events| + 1 && (dropped <==> |events'| < |events| + 1)
  {
    hide Windowed, Fits, Longest, Firsts, Seconds, Last;
    ghost var all := ps + [(c, n)];
    WindowGrows(ps, events, sizes, bytes, c, n);
    events', sizes', bytes', dropped := events + [c], sizes + [n], bytes + n, false;
    while |events'| > a.limit || bytes' > a.maxBytes
      invariant Windowed(all, events', sizes', bytes')
      invariant if dropped then |events'| <= |events| && !Fits(Seconds(all), a.limit, a.maxBytes, |events'| + 1)
                else |events'| == |events| + 1
      decreases |events'|
    {
      WindowTooLarge(all, events', sizes', bytes', a);
      events', sizes', bytes', dropped := PopOldest(all, events', sizes', bytes');
    }
    WindowFits(all, events', sizes', bytes', a);
    Slide(Seconds(ps), n, a.limit, a.maxBytes, |events|, |events'|);
  }

  method PopOldest(ghost ps: seq<(Event, nat)>, events: seq<Event>, sizes: seq<nat>, bytes: nat)
    returns (events': seq<Event>, sizes': seq<nat>, bytes': nat, dropped: bool)
    requires Windowed(ps, events, sizes, bytes) && events != []
    ensures Windowed(ps, events', sizes', bytes') && |events'| == |events| - 1 && dropped
  {
    WindowShrinks(ps, events, sizes, bytes);
    events', sizes', bytes', dropped := events[1..], sizes[1..], bytes - sizes[0], true;
  }

  // ── the query ───────────────────────────────────────────────────────────────

  datatype Page = Page(events: seq<Event>, nextCursor: string, hasMore: bool, gap: bool, truncated: bool, eventBytes: nat)

  datatype Result = Success(page: Page) | Failed(error: Error)

  // Two events of one run that are not consecutive, among the first k records.
  ghost predicate GapIn(recs: seq<Record>, k: nat)
    requires k <= |recs|
  {
    exists i :: 0 <= i < k - 1 && Skipped(recs[i], recs[i + 1])
  }

  // Both are events of one run, and the second is not the next of it.
  ghost predicate Skipped(a: Record, b: Record)
  {
    match (a, b)
    case (Entry(x), Entry(y)) => x.run == y.run && x.sequence > 0 && y.sequence - x.sequence != 1
    case _ => false
  }

  predicate Jumps(a: Record, b: Record)
  {
    && a.Entry? && b.Entry? && a.event.run == b.event.run && a.event.sequence != 0
    && b.event.sequence != a.event.sequence + 1
  }

  predicate Opens(after: string) { after == "" || after == START }

  function FirstCursor(after: string): string { if after == START then "" else after }

  // What a query has read so far.
  datatype Reading = Reading(found: bool, events: seq<Event>, sizes: seq<nat>, bytes: nat, next: string, gap: bool,
                             truncated: bool, previous: Option<Event>)

  // The page's own event, and whether reading goes on, stops at a full page or fails.
  datatype Verdict = Go | Full | Bad(error: Error)

  ghost predicate Read(recs: seq<Record>, i: nat, st: Reading)
  {
    && i <= |recs| && (forall j | 0 <= j < i :: recs[j].Entry?) && st.gap == GapIn(recs, i)
    && st.previous == if i == 0 then None else Some(recs[i - 1].event)
  }

  ghost predicate Searching(recs: seq<Record>, i: nat, after: string, st: Reading)
  {
    && i <= |recs| && !Opens(after) && Resume(recs, after, 0) == Resume(recs, after, i) && !st.found
    && st.events == [] && st.sizes == [] && st.bytes == 0 && st.next == FirstCursor(after) && !st.truncated
  }

  ghost predicate At(recs: seq<Record>, i: nat, after: string, st: Reading, pos: nat)
  {
    st.found && Resume(recs, after, 0) == Some(pos) && pos <= i <= |recs| && st.next == NextCursor(recs, after, pos, i)
  }

  ghost predicate Filling(recs: seq<Record>, i: nat, a: Ask, st: Reading, pos: nat)
  {
    && pos <= i <= |recs| && Forward(recs, pos, a, [], 0) == Forward(recs, i, a, st.events, st.bytes)
    && st.bytes <= a.maxBytes && (st.truncated <==> exists e :: e in st.events && e.truncated)
  }

  ghost predicate Tailing(recs: seq<Record>, i: nat, a: Ask, st: Reading, pos: nat, ps: seq<(Event, nat)>)
  {
    && pos <= i <= |recs| && FittedAll(recs, pos, i, a) == Some(ps) && Windowed(ps, st.events, st.sizes, st.bytes)
    && Longest(Seconds(ps), a.limit, a.maxBytes, |st.events|)
    && (st.truncated <==> |st.events| < |ps| || exists p :: p in ps && p.0.truncated)
  }

  ghost predicate Under(recs: seq<Record>, i: nat, after: string, tail: bool, a: Ask, st: Reading, pos: nat,
                        ps: seq<(Event, nat)>)
  {
    && Read(recs, i, st)
    && if !st.found then Searching(recs, i, after, st)
       else At(recs, i, after, st, pos) && if tail then Tailing(recs, i, a, st, pos, ps) else Filling(recs, i, a, st, pos)
  }

  // One record read by a forward query: a page it would overflow is full, and one
  // that cannot be read or fitted is an error, exactly when Forward says so.
  method FillNext(ghost recs: seq<Record>, ghost i: nat, a: Ask, st: Reading, e: Event, ghost pos: nat)
    returns (st': Reading, v: Verdict)
    requires i < |recs| && recs[i] == Entry(e) && a.wanted(e) && Filling(recs, i, a, st, pos) && CutsShrink(a.size)
    ensures v.Go? ==> Filling(recs, i + 1, a, st', pos)
    ensures v.Full? ==> st' == st && Forward(recs, pos, a, [], 0) == Stopped(i, true, st.events, st.bytes)
    ensures v.Bad? ==> v.error == MetadataTooLarge && Forward(recs, pos, a, [], 0) == Erred(MetadataTooLarge)
    ensures st'.(events := st.events, sizes := st.sizes, bytes := st.bytes, truncated := st.truncated) == st
  {
    hide Forward, Fitted, CutsShrink, CutLate;
    ForwardStep(recs, i, a, st.events, st.bytes, e);
    if |st.events| == a.limit { return st, Full; }
    var remaining: nat := a.maxBytes - st.bytes;
    if remaining < FLOOR && st.events != [] { return st, Full; }
    var f := Fit(e, remaining, a.size);
    if f.None? { return st, Bad(MetadataTooLarge); }
    var (c, n) := f.value;
    FittedIsLongest(e, remaining, a.size);
    st' := st.(events := st.events + [c], bytes := st.bytes + n, truncated := st.truncated || c.truncated);
    AnyTruncated(st.events, c);
    v := Go;
  }

  lemma AnyTruncated(es: seq<Event>, c: Event)
    ensures (exists x :: x in es + [c] && x.truncated) <==> c.truncated || exists x :: x in es && x.truncated
  {
    assert c in es + [c];
    assert forall x | x in es :: x in es + [c];
  }

  // One record read by a tail query.
  method TailNext(ghost recs: seq<Record>, ghost i: nat, a: Ask, st: Reading, e: Event, ghost pos: nat,
                  ghost ps: seq<(Event, nat)>)
    returns (st': Reading, v: Verdict, ghost ps': seq<(Event, nat)>)
    requires i < |recs| && recs[i] == Entry(e) && a.wanted(e) && Tailing(recs, i, a, st, pos, ps) && CutsShrink(a.size)
    requires a.limit >= 1
    ensures v.Go? ==> Tailing(recs, i + 1, a, st', pos, ps')
    ensures v.Bad? ==> v.error == MetadataTooLarge && FittedAll(recs, pos, i + 1, a).None?
    ensures !v.Full?
    ensures st'.(events := st.events, sizes := st.sizes, bytes := st.bytes, truncated := st.truncated) == st
  {
    ps' := ps;
    FittedAllStep(recs, pos, i, a, e);
    hide Windowed, Longest, CutsShrink, Fitted, FittedAll;
    var f := Fit(e, a.maxBytes, a.size);
    if f.None? { return st, Bad(MetadataTooLarge), ps; }
    var (c, n) := f.value;
    FittedIsLongest(e, a.maxBytes, a.size);
    ps' := ps + [(c, n)];
    var events, sizes, bytes, dropped := SlideIn(ps, st.events, st.sizes, st.bytes, c, n, a);
    st' := st.(events := events, sizes := sizes, bytes := bytes, truncated := st.truncated || c.truncated || dropped);
    v := Go;
    WindowBound(ps, st.events, st.sizes, st.bytes);
    SomeTruncated(ps, c, n);
  }

  lemma FittedAllStep(recs: seq<Record>, pos: nat, i: nat, a: Ask, e: Event)
    requires pos <= i < |recs| && recs[i] == Entry(e) && a.wanted(e) && FittedAll(recs, pos, i, a).Some?
    ensures var f := Fitted(e, a.maxBytes, a.size);
      FittedAll(recs, pos, i + 1, a) == if f.None? then None else Some(FittedAll(recs, pos, i, a).value + [f.value])
  {
  }

  lemma WindowBound(ps: seq<(Event, nat)>, events: seq<Event>, sizes: seq<nat>, bytes: nat)
    requires Windowed(ps, events, sizes, bytes)
    ensures |events| <= |ps|
  {
  }

  lemma SomeTruncated(ps: seq<(Event, nat)>, c: Event, n: nat)
    ensures (exists p :: p in ps + [(c, n)] && p.0.truncated) <==> c.truncated || exists p :: p in ps && p.0.truncated
  {
    assert (c, n) in ps + [(c, n)];
    assert forall p | p in ps :: p in ps + [(c, n)];
  }

  // The records before the cursor are skipped; the one it names is where the page
  // begins.
  method Locate(ghost recs: seq<Record>, ghost i: nat, after: string, tail: bool, a: Ask, st: Reading, e: Event)
    returns (st': Reading)
    requires i < |recs| && recs[i] == Entry(e) && Searching(recs, i, after, st)
    ensures if st'.found then
        At(recs, i + 1, after, st', i + 1)
        && (if tail then a.limit >= 1 ==> Tailing(recs, i + 1, a, st', i + 1, []) else Filling(recs, i + 1, a, st', i + 1))
      else Searching(recs, i + 1, after, st')
    ensures st'.(found := st.found, next := st.next) == st
  {
    st' := st;
    if e.id == after { st' := st.(found := true, next := e.id); }
  }

  // One record read, whatever the query.
  method Next(ghost recs: seq<Record>, ghost i: nat, after: string, tail: bool, a: Ask, st: Reading, rec: Record,
              ghost pos: nat, ghost ps: seq<(Event, nat)>)
    returns (st': Reading, v: Verdict, ghost pos': nat, ghost ps': seq<(Event, nat)>)
    requires i < |recs| && recs[i] == rec && Under(recs, i, after, tail, a, st, pos, ps)
    requires CutsShrink(a.size) && a.limit >= 1
    ensures v.Go? ==> Under(recs, i + 1, after, tail, a, st', pos', ps')
    ensures v.Full? ==> !tail && FullPage(recs, i, after, a, st', pos')
    ensures v.Bad? ==> Reason(recs, i, after, tail, a, v.error)
  {
    hide CutsShrink, Resume, Forward, FittedAll, Windowed, Longest, GapIn, Searching, At, Filling, Tailing;
    pos', ps' := pos, ps;
    if rec.Broken? { return st, Bad(BadRecord), pos, ps; }
    var e := rec.event;
    var jumps := st.previous.Some? && Jumps(Entry(st.previous.value), rec);
    GapGrows(recs, i);
    var read := st.(gap := st.gap || jumps, previous := Some(e));
    if !st.found {
      SearchFrame(recs, i, after, st, read);
      st' := Locate(recs, i, after, tail, a, read, e);
      return st', Go, i + 1, [];
    }
    StepFrame(recs, i, after, tail, a, st, read, pos, ps);
    if !a.wanted(e) {
      st' := read.(next := e.id);
      PassedBy(recs, i, after, tail, a, read, e, pos, ps);
      return st', Go, pos, ps;
    }
    var mid;
    if tail {
      mid, v, ps' := TailNext(recs, i, a, read, e, pos, ps);
    } else {
      mid, v := FillNext(recs, i, a, read, e, pos);
    }
    if v.Bad? { NotFitted(recs, i, after, tail, a, read, pos); }
    st' := mid;
    if v.Go? {
      st' := mid.(next := e.id);
      Advanced(recs, i, after, tail, a, read, mid, e, pos, ps');
    }
  }

  // A full page: Forward stopped right before record i.
  ghost predicate FullPage(recs: seq<Record>, i: nat, after: string, a: Ask, st: Reading, pos: nat)
  {
    && i < |recs| && At(recs, i, after, st, pos) && st.gap == GapIn(recs, i + 1)
    && Forward(recs, pos, a, [], 0) == Stopped(i, true, st.events, st.bytes)
    && (st.truncated <==> exists e :: e in st.events && e.truncated)
  }

  // Why record i cannot be answered for.
  ghost predicate Reason(recs: seq<Record>, i: nat, after: string, tail: bool, a: Ask, error: Error)
  {
    && i < |recs|
    && ((error == BadRecord && recs[i].Broken?)
        || (error == MetadataTooLarge && Resume(recs, after, 0).Some? && Resume(recs, after, 0).value <= i
            && Unfitted(recs, Resume(recs, after, 0).value, i, tail, a)))
  }

  ghost predicate Unfitted(recs: seq<Record>, pos: nat, i: nat, tail: bool, a: Ask)
    requires pos <= i < |recs|
  {
    if tail then FittedAll(recs, pos, i + 1, a).None? else Forward(recs, pos, a, [], 0) == Erred(MetadataTooLarge)
  }

  lemma GapGrows(recs: seq<Record>, i: nat)
    requires i < |recs|
    ensures GapIn(recs, i + 1) <==> GapIn(recs, i) || (i > 0 && Jumps(recs[i - 1], recs[i]))
  {
    if i > 0 && Jumps(recs[i - 1], recs[i]) { assert Jumps(recs[i - 1], recs[i - 1 + 1]); }
  }

  lemma SearchFrame(recs: seq<Record>, i: nat, after: string, st: Reading, read: Reading)
    requires Searching(recs, i, after, st) && read == st.(gap := read.gap, previous := read.previous)
    ensures Searching(recs, i, after, read)
  {
  }

  lemma StepFrame(recs: seq<Record>, i: nat, after: string, tail: bool, a: Ask, st: Reading, read: Reading, pos: nat,
                  ps: seq<(Event, nat)>)
    requires At(recs, i, after, st, pos) && read == st.(gap := read.gap, previous := read.previous)
    requires if tail then Tailing(recs, i, a, st, pos, ps) else Filling(recs, i, a, st, pos)
    ensures At(recs, i, after, read, pos)
    ensures if tail then Tailing(recs, i, a, read, pos, ps) else Filling(recs, i, a, read, pos)
  {
  }

  // An event that does not match moves the cursor on and nothing else.
  lemma PassedBy(recs: seq<Record>, i: nat, after: string, tail: bool, a: Ask, st: Reading, e: Event, pos: nat,
                 ps: seq<(Event, nat)>)
    requires i < |recs| && recs[i] == Entry(e) && !a.wanted(e) && At(recs, i, after, st, pos)
    requires if tail then Tailing(recs, i, a, st, pos, ps) else Filling(recs, i, a, st, pos)
    ensures At(recs, i + 1, after, st.(next := e.id), pos)
    ensures if tail then Tailing(recs, i + 1, a, st.(next := e.id), pos, ps) else Filling(recs, i + 1, a, st.(next := e.id), pos)
  {
    hide Forward, Fitted, Windowed, Longest, Resume;
    if !tail { ForwardStep(recs, i, a, st.events, st.bytes, e); }
  }

  lemma Advanced(recs: seq<Record>, i: nat, after: string, tail: bool, a: Ask, read: Reading, mid: Reading, e: Event,
                 pos: nat, ps: seq<(Event, nat)>)
    requires i < |recs| && recs[i] == Entry(e) && At(recs, i, after, read, pos) && mid.found
    requires if tail then Tailing(recs, i + 1, a, mid, pos, ps) else Filling(recs, i + 1, a, mid, pos)
    ensures At(recs, i + 1, after, mid.(next := e.id), pos)
    ensures if tail then Tailing(recs, i + 1, a, mid.(next := e.id), pos, ps)
            else Filling(recs, i + 1, a, mid.(next := e.id), pos)
  {
  }

  lemma NotFitted(recs: seq<Record>, i: nat, after: string, tail: bool, a: Ask, st: Reading, pos: nat)
    requires i < |recs| && At(recs, i, after, st, pos) && Unfitted(recs, pos, i, tail, a)
    ensures Reason(recs, i, after, tail, a, MetadataTooLarge)
  {
  }

  // ── whole queries ───────────────────────────────────────────────────────────

  // The page Forward describes, from where the cursor resumes.
  ghost predicate IsForwardPage(recs: seq<Record>, after: string, a: Ask, p: Page)
  {
    var pos := Resume(recs, after, 0);
    && pos.Some? && pos.value <= |recs|
    && var o := Forward(recs, pos.value, a, [], 0);
    && o.Stopped? && o.stop <= |recs|
    && p.events == o.got && p.eventBytes == o.bytes && p.hasMore == o.more
    && p.nextCursor == NextCursor(recs, after, pos.value, o.stop)
    && p.gap == GapIn(recs, if o.more && o.stop < |recs| then o.stop + 1 else o.stop)
    && (p.truncated <==> exists e :: e in p.events && e.truncated)
  }

  // The newest matching events after the cursor that both limits allow.
  ghost predicate IsTailPage(recs: seq<Record>, after: string, a: Ask, p: Page)
  {
    var pos := Resume(recs, after, 0);
    && pos.Some? && pos.value <= |recs|
    && var ps := FittedAll(recs, pos.value, |recs|, a);
    && ps.Some? && Newest(ps.value, a, p.events, p.eventBytes) && !p.hasMore
    && p.nextCursor == NextCursor(recs, after, pos.value, |recs|) && p.gap == GapIn(recs, |recs|)
    && (p.truncated <==> |p.events| < |ps.value| || exists q :: q in ps.value && q.0.truncated)
  }

  ghost predicate Answers(recs: seq<Record>, after: string, tail: bool, a: Ask, r: Option<Result>)
  {
    match r
    case None => Resume(recs, after, 0).None? && forall j | 0 <= j < |recs| :: recs[j].Entry?
    case Some(Success(p)) => if tail then IsTailPage(recs, after, a, p) else IsForwardPage(recs, after, a, p)
    case Some(Failed(error)) => exists i: nat :: Reason(recs, i, after, tail, a, error)
  }

  function PageOf(st: Reading, more: bool): Page
  {
    Page(st.events, st.next, more, st.gap, st.truncated, st.bytes)
  }

  lemma FullIsAnswer(recs: seq<Record>, i: nat, after: string, a: Ask, st: Reading, pos: nat)
    requires FullPage(recs, i, after, a, st, pos)
    ensures Answers(recs, after, false, a, Some(Success(PageOf(st, true))))
  {
  }

  lemma EndIsAnswer(recs: seq<Record>, after: string, tail: bool, a: Ask, st: Reading, pos: nat, ps: seq<(Event, nat)>)
    requires Under(recs, |recs|, after, tail, a, st, pos, ps)
    ensures Answers(recs, after, tail, a, if st.found then Some(Success(PageOf(st, false))) else None)
  {
    hide Resume, Forward, FittedAll, Windowed, Longest, GapIn, Tailing, Filling, At, Newest, IsTailPage, IsForwardPage;
    if !st.found {
      NeverFound(recs, after);
    } else if tail {
      TailEnd(recs, after, a, st, pos, ps);
    } else {
      ForwardEnd(recs, after, a, st, pos);
    }
  }

  lemma NeverFound(recs: seq<Record>, after: string)
    requires !Opens(after)
    ensures Resume(recs, after, |recs|).None?
  {
  }

  lemma TailEnd(recs: seq<Record>, after: string, a: Ask, st: Reading, pos: nat, ps: seq<(Event, nat)>)
    requires At(recs, |recs|, after, st, pos) && Tailing(recs, |recs|, a, st, pos, ps) && st.gap == GapIn(recs, |recs|)
    ensures IsTailPage(recs, after, a, PageOf(st, false))
  {
    hide Resume, FittedAll, GapIn, Longest, Forward;
    assert Seconds(Last(ps, |st.events|)) == Last(Seconds(ps), |st.events|);
    assert Newest(ps, a, st.events, st.bytes);
  }

  lemma ForwardEnd(recs: seq<Record>, after: string, a: Ask, st: Reading, pos: nat)
    requires At(recs, |recs|, after, st, pos) && Filling(recs, |recs|, a, st, pos) && st.gap == GapIn(recs, |recs|)
    ensures IsForwardPage(recs, after, a, PageOf(st, false))
  {
    assert Forward(recs, |recs|, a, st.events, st.bytes) == Stopped(|recs|, false, st.events, st.bytes);
    hide Resume, Forward, GapIn;
  }

  lemma StartIsUnder(recs: seq<Record>, after: string, tail: bool, a: Ask) returns (st: Reading)
    ensures st == Reading(Opens(after), [], [], 0, FirstCursor(after), false, false, None)
    ensures a.limit >= 1 ==> Under(recs, 0, after, tail, a, st, 0, [])
  {
    st := Reading(Opens(after), [], [], 0, FirstCursor(after), false, false, None);
  }

  // Reads the files of one snapshot in order; nothing when the cursor names no event
  // in them.
  method Scan(files: seq<seq<Record>>, after: string, tail: bool, a: Ask) returns (r: Option<Result>)
    requires CutsShrink(a.size) && a.limit >= 1
    ensures Answers(Concat(files), after, tail, a, r)
  {
    hide CutsShrink, Under, FullPage, Reason, Answers;
    ghost var recs := Concat(files);
    ghost var start := StartIsUnder(recs, after, tail, a);
    var st := Reading(Opens(after), [], [], 0, FirstCursor(after), false, false, None);
    ghost var i, pos, ps := 0, 0, [];
    for f := 0 to |files|
      invariant i == |Concat(files[..f])| <= |recs| && Under(recs, i, after, tail, a, st, pos, ps)
    {
      ghost var base := i;
      FileAt(files, f);
      for k := 0 to |files[f]|
        invariant i == base + k && Under(recs, i, after, tail, a, st, pos, ps)
      {
        assert recs[i] == files[f][k];
        var st', v;
        ghost var pos', ps';
        st', v, pos', ps' := Next(recs, i, after, tail, a, st, files[f][k], pos, ps);
        if v.Full? {
          FullIsAnswer(recs, i, after, a, st', pos');
          return Some(Success(PageOf(st', true)));
        }
        if v.Bad? {
          BadIsAnswer(recs, i, after, tail, a, v.error);
          return Some(Failed(v.error));
        }
        st, pos, ps, i := st', pos', ps', i + 1;
      }
    }
    assert files[..|files|] == files;
    EndIsAnswer(recs, after, tail, a, st, pos, ps);
    r := if st.found then Some(Success(PageOf(st, false))) else None;
  }

  lemma BadIsAnswer(recs: seq<Record>, i: nat, after: string, tail: bool, a: Ask, error: Error)
    requires Reason(recs, i, after, tail, a, error)
    ensures Answers(recs, after, tail, a, Some(Failed(error)))
  {
  }

  // Where the records of one file are among all of them.
  lemma {:induction false} FileAt(files: seq<seq<Record>>, f: nat)
    requires f < |files|
    ensures |Concat(files[..f + 1])| == |Concat(files[..f])| + |files[f]| <= |Concat(files)|
    ensures forall k | 0 <= k < |files[f]| :: Concat(files)[|Concat(files[..f])| + k] == files[f][k]
  {
    assert files[..f + 1] == files[..f] + [files[f]];
    ConcatSnoc(files[..f], files[f]);
    ConcatSplit(files, f + 1);
  }

  lemma {:induction false} ConcatSplit(files: seq<seq<Record>>, f: nat)
    requires f <= |files|
    ensures Concat(files) == Concat(files[..f]) + Concat(files[f..])
  {
    if f == 0 {
      assert files[..0] == [] && files[0..] == files;
    } else {
      ConcatSplit(files, f - 1);
      assert files[..f] == files[..f - 1] + [files[f - 1]];
      ConcatSnoc(files[..f - 1], files[f - 1]);
      assert files[f - 1..][1..] == files[f..];
    }
  }

  // What a page never exceeds, and its byte count.
  ghost predicate PageWithin(p: Page, limit: nat, maxBytes: nat, size: Event -> nat)
  {
    && |p.events| <= limit && p.eventBytes <= maxBytes && p.eventBytes == Weight(p.events, size)
    && (p.hasMore ==> |p.events| == limit || maxBytes < p.eventBytes + 1024)
  }

  lemma AnswerWithin(recs: seq<Record>, after: string, tail: bool, a: Ask, p: Page)
    requires Answers(recs, after, tail, a, Some(Success(p)))
    ensures PageWithin(p, a.limit, a.maxBytes, a.size)
  {
    var pos := Resume(recs, after, 0).value;
    if tail {
      var ps := FittedAll(recs, pos, |recs|, a).value;
      var k: nat :| Longest(Seconds(ps), a.limit, a.maxBytes, k) && p.events == Firsts(Last(ps, k))
                    && p.eventBytes == Sum(Last(Seconds(ps), k));
      FittedSizes(recs, pos, |recs|, a);
      assert Last(Seconds(ps), k) == Seconds(Last(ps, k));
      WeightIsSum(Last(ps, k), a.size);
    } else {
      ForwardWithin(recs, pos, a, [], 0);
    }
  }

  lemma {:induction false} FittedSizes(recs: seq<Record>, i: nat, k: nat, a: Ask)
    requires i <= k <= |recs| && FittedAll(recs, i, k, a).Some?
    ensures forall p | p in FittedAll(recs, i, k, a).value :: p.1 == a.size(p.0)
  {
    hide Fitted;
    if i < k {
      FittedSizes(recs, i, k - 1, a);
      var e := recs[k - 1].event;
      if a.wanted(e) { FittedIsLongest(e, a.maxBytes, a.size); }
    }
  }

  lemma {:induction false} WeightIsSum(ps: seq<(Event, nat)>, size: Event -> nat)
    requires forall p | p in ps :: p.1 == size(p.0)
    ensures Weight(Firsts(ps), size) == Sum(Seconds(ps))
  {
    if ps != [] {
      var init, last := ps[..|ps| - 1], ps[|ps| - 1];
      WeightIsSum(init, size);
      assert Firsts(ps) == Firsts(init) + [last.0] && Seconds(ps) == Seconds(init) + [last.1];
      assert Firsts(ps)[..|ps| - 1] == Firsts(init);
      SumSnoc(Seconds(init), last.1);
    } else {
      assert Firsts(ps) == [] && Seconds(ps) == [];
    }
  }

  // A cursor is a run, a colon, and a number of 64 bits.
  ghost predicate IsCursor(s: string)
  {
    exists run: string, number: string :: s == Joined(run, number) && run != "" && ':' !in run && Number(number)
  }

  ghost function Joined(run: string, number: string): string { run + [':'] + number }

  lemma JoinSplits(run: string, number: string)
    ensures var s, i := Joined(run, number), |run|;
      i < |s| && s[i] == ':' && s[..i] == run && s[i + 1..] == number
  {
  }

  lemma SplitJoins(s: string, i: nat)
    requires i < |s| && s[i] == ':'
    ensures s == Joined(s[..i], s[i + 1..])
  {
  }

  lemma CursorMeans(s: string)
    ensures ValidCursor(s) <==> IsCursor(s)
  {
    hide Number, Joined;
    if ValidCursor(s) {
      var i :| 0 < i < |s| && s[i] == ':' && ':' !in s[..i] && Number(s[i + 1..]);
      SplitJoins(s, i);
      assert |s[..i]| == i;
    }
    if IsCursor(s) {
      var run, number :| s == Joined(run, number) && run != "" && ':' !in run && Number(number);
      JoinSplits(run, number);
      assert |run| > 0;
    }
  }

  ghost function Printed(n: nat): string
  {
    if n < 10 then [('0' as nat + n) as char] else Printed(n / 10) + [('0' as nat + n % 10) as char]
  }

  lemma {:induction false} PrintedReads(n: nat)
    ensures var s := Printed(n);
      s != "" && (forall i | 0 <= i < |s| :: '0' <= s[i] <= '9') && Decimal(s) == n
  {
    var s := Printed(n);
    if n < 10 {
      assert s[..0] == "";
    } else {
      PrintedReads(n / 10);
      assert s[..|s| - 1] == Printed(n / 10);
    }
  }

  // The ID of an event is a cursor as long as its sequence number has 64 bits.
  lemma EventIsCursor(run: string, sequence: nat)
    requires run != "" && ':' !in run
    ensures IsCursor(Joined(run, Printed(sequence))) <==> sequence < 0x1_0000_0000_0000_0000
  {
    var s := Joined(run, Printed(sequence));
    PrintedReads(sequence);
    JoinSplits(run, Printed(sequence));
    if IsCursor(s) {
      var other, number :| s == Joined(other, number) && other != "" && ':' !in other && Number(number);
      JoinSplits(other, number);
      assert |other| == |run| by { SameColon(s, |run|, |other|); }
    }
  }

  lemma SameColon(s: string, i: nat, j: nat)
    requires i < |s| && j < |s| && s[i] == ':' && s[j] == ':' && ':' !in s[..i] && ':' !in s[..j]
    ensures i == j
  {
  }

  // The whole query. A cursor that names no retained event falls back to the newest
  // page of the journal as it is then, marked as a gap.
  method Query(files: seq<seq<Record>>, again: seq<seq<Record>>, limit: int, maxBytes: int, after: string, tail: bool,
               wanted: Event -> bool, size: Event -> nat)
    returns (r: Result)
    requires CutsShrink(size)
    ensures r == Failed(BadLimits) <==>
      !((limit == 0 || 1 <= limit <= 1000) && (maxBytes == 0 || 1024 <= maxBytes <= 1048576))
    ensures r == Failed(BadCursor) <==>
      && (limit == 0 || 1 <= limit <= 1000) && (maxBytes == 0 || 1024 <= maxBytes <= 1048576)
      && after != "" && after != "start" && !IsCursor(after)
    ensures r.Success? ==>
      PageWithin(r.page, if limit == 0 then 50 else limit, if maxBytes == 0 then 65536 else maxBytes, size)
    ensures r !in {Failed(BadLimits), Failed(BadCursor)} ==>
      var a := Ask(if limit == 0 then 50 else limit, if maxBytes == 0 then 65536 else maxBytes, wanted, size);
      || Answers(Concat(files), after, tail, a, Some(r))
      || (Answers(Concat(files), after, tail, a, None) && (r.Success? ==> r.page.gap)
          && exists q :: Answers(Concat(again), "", true, a, Some(q))
                         && r == if q.Success? then Success(q.page.(gap := true)) else q)
  {
    CursorMeans(after);
    hide Answers, ValidCursor, IsCursor, CutsShrink, PageWithin;
    if !((limit == 0 || 1 <= limit <= 1000) && (maxBytes == 0 || 1024 <= maxBytes <= 1048576)) {
      return Failed(BadLimits);
    }
    if !Opens(after) && !ValidCursor(after) { return Failed(BadCursor); }
    var a := Ask(if limit == 0 then 50 else limit, if maxBytes == 0 then 65536 else maxBytes, wanted, size);
    var first := Scan(files, after, tail, a);
    if first.Some? {
      ErrorsAreOther(Concat(files), after, tail, a, first.value);
      if first.value.Success? { AnswerWithin(Concat(files), after, tail, a, first.value.page); }
      return first.value;
    }
    var fallback := Scan(again, "", true, a);
    StartIsFound(Concat(again), a, fallback);
    ErrorsAreOther(Concat(again), "", true, a, fallback.value);
    r := fallback.value;
    if r.Success? {
      AnswerWithin(Concat(again), "", true, a, r.page);
      MarkedWithin(r.page, a);
      r := Success(r.page.(gap := true));
    }
  }

  lemma MarkedWithin(p: Page, a: Ask)
    requires PageWithin(p, a.limit, a.maxBytes, a.size)
    ensures PageWithin(p.(gap := true), a.limit, a.maxBytes, a.size)
  {
  }

  lemma ErrorsAreOther(recs: seq<Record>, after: string, tail: bool, a: Ask, r: Result)
    requires Answers(recs, after, tail, a, Some(r))
    ensures r != Failed(BadLimits) && r != Failed(BadCursor)
  {
  }

  lemma StartIsFound(recs: seq<Record>, a: Ask, r: Option<Result>)
    requires Answers(recs, "", true, a, r)
    ensures r.Some?
  {
  }
}
