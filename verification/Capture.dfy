/**
 The bounded capture of one output stream (internal/runner/check.go).
 */
module Capture {
  import opened Bytes
  import Utf8

  const NEWLINE: Byte := 10

  // No later place within the limit cuts s between characters.
  ghost predicate CutLate(s: seq<Byte>, n: nat, limit: int)
  {
    forall j | n < j <= limit && j <= |s| :: !Utf8.Valid(s[..j])
  }

  lemma PrefixStays(s: seq<Byte>, more: seq<Byte>, n: nat, limit: nat)
    requires limit < |s|
    ensures CutLate(s, n, limit) ==> CutLate(s + more, n, limit)
  {
    assert forall j | 0 <= j <= |s| :: (s + more)[..j] == s[..j];
  }

  // Every place after the one kept, up to the room there was, is inside a character.
  lemma NothingLater(data: seq<Byte>, full: seq<Byte>, kept: nat, room: int)
    requires Utf8.Valid(data + full) && kept <= |full| && room < |full|
    requires forall j | kept < j <= room :: Utf8.Continuation(full[j])
    ensures CutLate(data + full, |data| + kept, |data| + room)
  {
    forall j | |data| + kept < j <= |data| + room
      ensures !Utf8.Valid((data + full)[..j])
    {
      assert (data + full)[j] == full[j - |data|];
      Utf8.CutInsideCharacter(data + full, j);
    }
  }

  class CappedBuffer {
    const limit: int
    var data: seq<Byte>
    var truncated: bool
    // The whole stream, line by line.
    ghost var stream: seq<Byte>
    // Whether every line so far was well-formed UTF-8.
    ghost var wellFormed: bool

    constructor (limit: int)
      ensures Valid() && this.limit == limit && stream == [] && wellFormed
    {
      this.limit, data, truncated, stream, wellFormed := limit, [], false, [], true;
    }

    // The capture is a prefix of the stream within its limit, all of it unless it
    // says otherwise; of a well-formed stream it is the longest prefix within the
    // limit that splits no character.
    ghost predicate Valid()
      reads this
    {
      && data <= stream && (|data| <= limit || data == []) && (!truncated ==> data == stream)
      && (wellFormed ==> Utf8.Valid(data) && Utf8.Valid(stream))
      && (truncated ==> |stream| > limit) && (truncated && wellFormed ==> CutLate(stream, |data|, limit))
    }

    method WriteLine(line: seq<Byte>)
      requires Valid()
      modifies this
      ensures Valid() && stream == old(stream) + line + [NEWLINE]
      ensures truncated <==> old(truncated) || |old(data)| + |line| + 1 > limit
      ensures old(data) <= data && (old(truncated) ==> data == old(data))
      ensures !old(truncated) && truncated ==>
        exists kept :: CutAt(line + [NEWLINE], limit - |old(data)|, kept) && data == old(data) + (line + [NEWLINE])[..kept]
      ensures wellFormed <==> old(wellFormed) && Utf8.Valid(line)
    {
      var full := line + [NEWLINE];
      assert stream + full == stream + line + [NEWLINE];
      stream, wellFormed := stream + full, wellFormed && Utf8.Valid(line);
      if truncated {
        if wellFormed { LineIsValid(old(stream), line); }
        if limit >= 0 { PrefixStays(old(stream), full, |data|, limit); }
        return;
      }
      var room := limit - |data|;
      if |full| > room {
        var kept := LastCut(full, room);
        if wellFormed {
          KeptIsValid(data, line, kept);
          LineIsValid(old(stream), line);
          NothingLater(data, full, kept, room);
        }
        data := data + full[..kept];
        truncated := true;
        return;
      }
      if wellFormed { LineIsValid(data, line); }
      data := data + full;
    }
  }

  // Whether the line is well formed or not, it is cut at the last place within the room
  // that is not inside a character.
  ghost predicate CutAt(full: seq<Byte>, room: int, kept: int)
  {
    && 0 <= kept <= |full| && (kept <= room || kept == 0) && (kept == 0 || kept == |full| || !Utf8.Continuation(full[kept]))
    && forall j | kept < j <= room && j < |full| :: Utf8.Continuation(full[j])
  }

  // The last place within the room that does not cut before a continuation byte.
  method LastCut(full: seq<Byte>, room: int) returns (kept: nat)
    requires room < |full|
    ensures CutAt(full, room, kept)
  {
    var cut := room;
    while cut > 0 && cut < |full| && Utf8.Continuation(full[cut])
      invariant cut <= room && (room >= 0 ==> cut >= 0)
      invariant forall j | cut < j <= room && 0 <= j < |full| :: Utf8.Continuation(full[j])
    {
      cut := cut - 1;
    }
    kept := if cut > 0 then cut else 0;
  }

  lemma LineIsValid(data: seq<Byte>, line: seq<Byte>)
    requires Utf8.Valid(data) && Utf8.Valid(line)
    ensures Utf8.Valid(line + [NEWLINE]) && Utf8.Valid(data + (line + [NEWLINE]))
  {
    assert [NEWLINE][1..] == [];
    assert Utf8.Valid([NEWLINE]);
    Utf8.ValidJoin(line, [NEWLINE]);
    Utf8.ValidJoin(data, line + [NEWLINE]);
  }

  lemma KeptIsValid(data: seq<Byte>, line: seq<Byte>, kept: nat)
    requires Utf8.Valid(data) && Utf8.Valid(line) && kept <= |line| + 1
    requires kept == 0 || kept == |line| + 1 || !Utf8.Continuation((line + [NEWLINE])[kept])
    ensures Utf8.Valid(data + (line + [NEWLINE])[..kept])
  {
    LineIsValid(data, line);
    Utf8.CutBeforeStart(line + [NEWLINE], kept);
    Utf8.ValidJoin(data, (line + [NEWLINE])[..kept]);
  }
}
