/**
 Sliding windows under two limits, a count and a budget: what the log ring
 (internal/ipc/ringbuf.go) and a tail page (internal/logs/query.go) both keep.
 */
module Windows {
  ghost function Sum(s: seq<nat>): nat
  {
    if s == [] then 0 else s[0] + Sum(s[1..])
  }

  lemma {:induction false} SumSnoc(s: seq<nat>, x: nat)
    ensures Sum(s + [x]) == Sum(s) + x
  {
    if s == [] {
      assert s + [x] == [x] && [x][1..] == [];
    } else {
      assert (s + [x])[1..] == s[1..] + [x];
      SumSnoc(s[1..], x);
    }
  }

  function Last<T>(s: seq<T>, k: nat): (r: seq<T>)
    requires k <= |s|
    ensures |r| == k && forall i | 0 <= i < k :: r[i] == s[|s| - k + i]
  {
    s[|s| - k..]
  }

  // The newest k fit: no more than the limit, and their sizes within the budget.
  ghost predicate Fits(s: seq<nat>, limit: nat, budget: nat, k: nat)
  {
    k <= |s| && k <= limit && Sum(Last(s, k)) <= budget
  }

  // k is the longest suffix that fits.
  ghost predicate Longest(s: seq<nat>, limit: nat, budget: nat, k: nat)
  {
    Fits(s, limit, budget, k) && forall j | k < j <= |s| :: !Fits(s, limit, budget, j)
  }

  lemma {:induction false} ShorterFits(s: seq<nat>, limit: nat, budget: nat, j: nat, k: nat)
    requires j <= k && Fits(s, limit, budget, k)
    ensures Fits(s, limit, budget, j)
  {
    if j < k {
      assert Last(s, k)[1..] == Last(s, k - 1);
      ShorterFits(s, limit, budget, j, k - 1);
    }
  }

  // The sliding-window step: append one that fits by itself and drop the oldest
  // while the window does not fit. What remains is again the longest suffix.
  lemma Slide(s: seq<nat>, x: nat, limit: nat, budget: nat, k: nat, k': nat)
    requires Longest(s, limit, budget, k) && k' <= k + 1 && Fits(s + [x], limit, budget, k')
    requires k' == k + 1 || !Fits(s + [x], limit, budget, k' + 1)
    ensures Longest(s + [x], limit, budget, k')
  {
    forall j | k' < j <= |s + [x]|
      ensures !Fits(s + [x], limit, budget, j)
    {
      if Fits(s + [x], limit, budget, j) {
        ShorterFits(s + [x], limit, budget, k' + 1, j);
        assert Last(s + [x], k' + 1) == Last(s, k') + [x];
        SumSnoc(Last(s, k'), x);
        NextSuffix(s, x, limit, budget, k);
      }
    }
  }

  // If the longest suffix and the newcomer and one more all fitted, the suffix was
  // not the longest.
  lemma NextSuffix(s: seq<nat>, x: nat, limit: nat, budget: nat, k: nat)
    requires Longest(s, limit, budget, k)
    ensures !Fits(s + [x], limit, budget, k + 2)
  {
    if k + 1 <= |s| {
      assert Last(s + [x], k + 2) == Last(s, k + 1) + [x];
      SumSnoc(Last(s, k + 1), x);
      assert !Fits(s, limit, budget, k + 1);
    }
  }
}
