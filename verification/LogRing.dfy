/**
 The replay ring of recent log entries (internal/ipc/ringbuf.go).
 */
module LogRing {
  import opened Windows

  const BUDGET := 262144

  function Wrap(x: nat, capacity: nat): (r: nat)
    requires capacity > 0 && x < 2 * capacity
    ensures r < capacity && r == if x < capacity then x else x - capacity
  {
    ModOnce(x, capacity);
    x % capacity
  }

  lemma ModOnce(x: nat, m: nat)
    requires m > 0 && x < 2 * m
    ensures x % m == if x < m then x else x - m
  {
    if x >= m { assert x == m * 1 + (x - m); }
  }

  datatype Item<T> = Item(entry: T, size: nat)

  function Sizes<T>(items: seq<Item<T>>): (r: seq<nat>)
    ensures |r| == |items| && forall i | 0 <= i < |items| :: r[i] == items[i].size
  {
    seq(|items|, i requires 0 <= i < |items| => items[i].size)
  }

  function Entries<T>(items: seq<Item<T>>): (r: seq<T>)
    ensures |r| == |items| && forall i | 0 <= i < |items| :: r[i] == items[i].entry
  {
    seq(|items|, i requires 0 <= i < |items| => items[i].entry)
  }

  // Where the i-th oldest of n entries is when the next goes to head.
  function Place(capacity: nat, head: nat, n: nat, i: nat): (p: nat)
    requires head < capacity && n <= capacity && i < n
    ensures p < capacity
  {
    if head + i >= n then head + i - n else head + i + capacity - n
  }

  // The arrays hold the items, oldest first, up to head.
  ghost predicate Holds<T>(bs: seq<T>, ss: seq<nat>, head: nat, items: seq<Item<T>>)
  {
    && |bs| == |ss| && head < |bs| && |items| <= |bs|
    && forall i: nat | i < |items| :: Slot(bs, ss, Place(|bs|, head, |items|, i), items[i])
  }

  ghost predicate Slot<T>(bs: seq<T>, ss: seq<nat>, p: nat, item: Item<T>)
  {
    p < |bs| && p < |ss| && bs[p] == item.entry && ss[p] == item.size
  }

  lemma DropKeeps<T>(bs: seq<T>, ss: seq<nat>, head: nat, items: seq<Item<T>>, blank: T)
    requires Holds(bs, ss, head, items) && items != []
    ensures Slot(bs, ss, Place(|bs|, head, |items|, 0), items[0])
    ensures Holds(bs[Place(|bs|, head, |items|, 0) := blank], ss, head, items[1..])
  {
    var bs' := bs[Place(|bs|, head, |items|, 0) := blank];
    forall i: nat | i < |items[1..]|
      ensures Slot(bs', ss, Place(|bs|, head, |items| - 1, i), items[1..][i])
    {
      assert Slot(bs, ss, Place(|bs|, head, |items|, i + 1), items[i + 1]);
    }
  }

  lemma InsertKeeps<T>(bs: seq<T>, ss: seq<nat>, head: nat, items: seq<Item<T>>, e: T, size: nat)
    requires Holds(bs, ss, head, items) && |items| < |bs|
    ensures Holds(bs[head := e], ss[head := size], if head + 1 == |bs| then 0 else head + 1, items + [Item(e, size)])
  {
    var bs', ss', head' := bs[head := e], ss[head := size], if head + 1 == |bs| then 0 else head + 1;
    forall i: nat | i < |items| + 1
      ensures Slot(bs', ss', Place(|bs|, head', |items| + 1, i), (items + [Item(e, size)])[i])
    {
      if i < |items| { assert Slot(bs, ss, Place(|bs|, head, |items|, i), items[i]); }
    }
  }

  class LogRing<T> {
    const blank: T
    const buf: array<T>
    const sizes: array<nat>
    var head: nat
    var n: nat
    var bytes: nat
    // Every entry ever taken in.
    ghost var accepted: seq<Item<T>>

    ghost predicate Valid()
      reads this, buf, sizes
    {
      Laid() && Longest(Sizes(accepted), buf.Length, BUDGET, n)
    }

    // The arrays hold the newest n accepted entries.
    ghost predicate Laid()
      reads this, buf, sizes
    {
      && buf.Length == sizes.Length && buf != sizes && n <= |accepted|
      && (if buf.Length == 0 then head == 0 && n == 0 else Holds(buf[..], sizes[..], head, Window()))
      && bytes == Sum(Sizes(Window()))
    }

    ghost function Window(): seq<Item<T>>
      requires n <= |accepted|
      reads this
    {
      Last(accepted, n)
    }

    constructor (capacity: nat, blank: T)
      ensures Valid() && accepted == [] && buf.Length == capacity && fresh(buf) && fresh(sizes)
    {
      this.blank := blank;
      buf := new T[capacity](_ => blank);
      sizes := new nat[capacity](_ => 0);
      head, n, bytes, accepted := 0, 0, 0, [];
    }

    method DropOldest()
      requires Laid() && n > 0
      modifies this`n, this`bytes, buf
      ensures Laid() && n == old(n) - 1
    {
      hide Holds;
      var capacity := buf.Length;
      Bounds();
      ghost var was, window := buf[..], Window();
      var oldest := Wrap(head + capacity - n, capacity);
      assert oldest == Place(capacity, head, n, 0);
      DropKeeps(was, sizes[..], head, window, blank);
      assert window[1..] == Last(accepted, n - 1) && Sizes(window)[1..] == Sizes(window[1..]);
      bytes := bytes - sizes[oldest];
      buf[oldest] := blank;
      assert buf[..] == was[oldest := blank];
      n := n - 1;
    }

    lemma Bounds()
      requires Laid() && (n > 0 || buf.Length > 0)
      ensures head < buf.Length && n <= buf.Length
    {
    }

    // Takes an entry in, dropping the oldest until it fits. An entry larger than
    // the whole budget is not taken, nor is any when there is no room at all.
    method Push(e: T, size: nat)
      requires Valid()
      modifies this, buf, sizes
      ensures Valid()
      ensures accepted == if buf.Length == 0 || size > 262144 then old(accepted) else old(accepted) + [Item(e, size)]
    {
      if buf.Length == 0 || size > BUDGET { return; }
      MakeRoom(size);
      assert Sizes(accepted + [Item(e, size)]) == Sizes(accepted) + [size];
      hide Laid, Longest;
      Insert(e, size);
    }

    method MakeRoom(size: nat)
      requires Valid() && buf.Length > 0 && size <= BUDGET
      modifies this`n, this`bytes, buf
      ensures Laid() && n < buf.Length && Longest(Sizes(accepted) + [size], buf.Length, BUDGET, n + 1)
    {
      hide Laid, Fits, Longest;
      ghost var k, all := n, Sizes(accepted);
      while n > 0 && (n == buf.Length || bytes + size > BUDGET)
        invariant Laid() && n <= k && (n == k || !Fits(all + [size], buf.Length, BUDGET, n + 2))
        decreases n
      {
        NoRoom(size);
        DropOldest();
      }
      Room(size);
      Slide(all, size, buf.Length, BUDGET, k, n + 1);
    }

    // Another entry would overflow the count or the budget.
    lemma NoRoom(size: nat)
      requires Laid() && (n == buf.Length || bytes + size > BUDGET)
      ensures !Fits(Sizes(accepted) + [size], buf.Length, BUDGET, n + 1)
    {
      hide Holds;
      assert Last(Sizes(accepted) + [size], n + 1) == Sizes(Window()) + [size];
      SumSnoc(Sizes(Window()), size);
    }

    lemma Room(size: nat)
      requires Laid() && size <= BUDGET && buf.Length > 0 && (n == 0 || (n != buf.Length && bytes + size <= BUDGET))
      ensures n < buf.Length && Fits(Sizes(accepted) + [size], buf.Length, BUDGET, n + 1)
    {
      Bounds();
      hide Holds;
      assert Last(Sizes(accepted) + [size], n + 1) == Sizes(Window()) + [size];
      SumSnoc(Sizes(Window()), size);
    }

    method Insert(e: T, size: nat)
      requires Laid() && n < buf.Length
      modifies this, buf, sizes
      ensures Laid() && n == old(n) + 1 && accepted == old(accepted) + [Item(e, size)]
    {
      hide Holds;
      Bounds();
      ghost var bs, ss, window := buf[..], sizes[..], Window();
      InsertKeeps(bs, ss, head, window, e, size);
      SumSnoc(Sizes(window), size);
      assert Last(accepted + [Item(e, size)], n + 1) == window + [Item(e, size)];
      assert Sizes(window + [Item(e, size)]) == Sizes(window) + [size];
      buf[head], sizes[head] := e, size;
      assert buf[..] == bs[head := e] && sizes[..] == ss[head := size];
      accepted := accepted + [Item(e, size)];
      bytes := bytes + size;
      n := n + 1;
      head := Wrap(head + 1, buf.Length);
    }

    // The entries taken in, newest last, as far back as count and budget allow.
    method Snapshot() returns (out: seq<T>)
      requires Valid()
      ensures |out| == n <= |accepted| && out == Entries(Last(accepted, n))
      ensures Longest(Sizes(accepted), buf.Length, 262144, |out|)
    {
      hide Longest;
      out := [];
      if n == 0 { return; }
      Bounds();
      var oldest := Wrap(head + buf.Length - n, buf.Length);
      for i := 0 to n
        invariant |out| == i && forall j | 0 <= j < i :: out[j] == Window()[j].entry
      {
        var p := Wrap(oldest + i, buf.Length);
        assert p == Place(buf.Length, head, n, i) && Slot(buf[..], sizes[..], p, Window()[i]);
        out := out + [buf[p]];
      }
    }
  }
}
