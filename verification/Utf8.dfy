/**
 Well-formed UTF-8, by the syntax of RFC 3629 section 4, and what it means to cut a
 string without splitting a character.
 */
module Utf8 {
  import opened Bytes

  predicate Tail(s: seq<Byte>, i: nat)
  {
    i < |s| && 0x80 <= s[i] <= 0xBF
  }

  predicate Second(s: seq<Byte>, lo: Byte, hi: Byte)
  {
    1 < |s| && lo <= s[1] <= hi
  }

  // How many bytes the well-formed character at the front has; 0 when there is none.
  function First(s: seq<Byte>): (n: nat)
    ensures n <= |s| && n <= 4
  {
    if s == [] then 0
    else
      var b := s[0];
      if b <= 0x7F then 1
      else if 0xC2 <= b <= 0xDF && Tail(s, 1) then 2
      else if b == 0xE0 && Second(s, 0xA0, 0xBF) && Tail(s, 2) then 3
      else if b == 0xED && Second(s, 0x80, 0x9F) && Tail(s, 2) then 3
      else if 0xE1 <= b <= 0xEF && b != 0xED && Tail(s, 1) && Tail(s, 2) then 3
      else if b == 0xF0 && Second(s, 0x90, 0xBF) && Tail(s, 2) && Tail(s, 3) then 4
      else if 0xF1 <= b <= 0xF3 && Tail(s, 1) && Tail(s, 2) && Tail(s, 3) then 4
      else if b == 0xF4 && Second(s, 0x80, 0x8F) && Tail(s, 2) && Tail(s, 3) then 4
      else 0
  }

  predicate Valid(s: seq<Byte>)
    decreases |s|
  {
    s == [] || (First(s) > 0 && Valid(s[First(s)..]))
  }

  // The first character does not depend on what follows it.
  lemma FirstIsLocal(s: seq<Byte>, t: seq<Byte>)
    requires s <= t && First(s) > 0
    ensures First(t) == First(s)
  {
    assert forall i | 0 <= i < |s| :: t[i] == s[i];
  }

  // No character is a proper part of another.
  lemma FirstIsWhole(s: seq<Byte>, n: nat)
    requires 0 < n < First(s)
    ensures First(s[..n]) == 0
  {
    assert forall i | 0 <= i < n :: s[..n][i] == s[i];
  }

  predicate Continuation(b: Byte)
  {
    0x80 <= b <= 0xBF
  }

  lemma RestContinues(s: seq<Byte>, i: nat)
    requires 0 < i < First(s)
    ensures Continuation(s[i])
  {
  }

  lemma {:induction false} ValidJoin(s: seq<Byte>, t: seq<Byte>)
    requires Valid(s) && Valid(t)
    ensures Valid(s + t)
    decreases |s|
  {
    if s == [] {
      assert s + t == t;
    } else {
      FirstIsLocal(s, s + t);
      ValidJoin(s[First(s)..], t);
      assert (s + t)[First(s)..] == s[First(s)..] + t;
    }
  }

  // In well-formed text every byte that is not a continuation starts a character,
  // so cutting before one splits none.
  lemma {:induction false} CutBeforeStart(s: seq<Byte>, n: nat)
    requires Valid(s) && n <= |s| && (n == |s| || n == 0 || !Continuation(s[n]))
    ensures Valid(s[..n])
    decreases |s|
  {
    if 0 < n < |s| {
      var k := First(s);
      if n < k { RestContinues(s, n); }
      FirstOfPrefix(s, n);
      CutBeforeStart(s[k..], n - k);
      assert s[..n][k..] == s[k..][..n - k];
    } else {
      assert n == |s| ==> s[..n] == s;
    }
  }

  // Cutting before a continuation always splits a character.
  lemma {:induction false} CutInsideCharacter(s: seq<Byte>, n: nat)
    requires Valid(s) && n < |s| && Continuation(s[n])
    ensures !Valid(s[..n])
    decreases |s|
  {
    var k := First(s);
    if n < k {
      assert n > 0;
      FirstIsWhole(s, n);
    } else {
      FirstOfPrefix(s, n);
      CutInsideCharacter(s[k..], n - k);
      assert s[..n][k..] == s[k..][..n - k];
    }
  }

  lemma FirstOfPrefix(s: seq<Byte>, n: nat)
    requires 0 < First(s) <= n <= |s|
    ensures First(s[..n]) == First(s)
  {
    assert forall i | 0 <= i < n :: s[..n][i] == s[i];
  }

  // The longest well-formed prefix of the first n bytes.
  function TrimmedTo(s: seq<Byte>, n: nat): (k: nat)
    requires n <= |s|
    ensures k <= n && Valid(s[..k]) && forall j | k < j <= n :: !Valid(s[..j])
  {
    if Valid(s[..n]) then n else TrimmedTo(s, n - 1)
  }

  // Cutting further out never cuts more off.
  lemma TrimMonotone(s: seq<Byte>, m: nat, n: nat)
    requires m <= n <= |s|
    ensures TrimmedTo(s, m) <= TrimmedTo(s, n)
  {
  }

  // Drops bytes from the end until what is left is well formed.
  method Trim(s: seq<Byte>) returns (t: seq<Byte>)
    ensures t == s[..TrimmedTo(s, |s|)] && Valid(t)
  {
    t := s;
    while |t| > 0 && !Valid(t)
      invariant t <= s && TrimmedTo(s, |t|) == TrimmedTo(s, |s|)
    {
      assert s[..|t|] == t;
      t := t[..|t| - 1];
    }
    assert s[..|t|] == t;
  }
}
