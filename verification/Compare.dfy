/**
 The verdict of a comparison (internal/verify/compare.go).

 What is judged is captures; what is claimed is about the outputs they were taken
 from. An attempt's capture is the whole output of both streams, or, when its
 truncation flag is set, some prefix of each.
 */
module Compare {
  import opened Wrappers
  import opened Bytes
  import opened Capture

  datatype Attempt = Attempt(status: string, checkStatus: string, exit: Option<int>, stdout: seq<Byte>,
                             stderr: seq<Byte>, truncated: bool)

  // What an attempt really wrote.
  datatype Output = Output(stdout: seq<Byte>, stderr: seq<Byte>)

  predicate Captures(a: Attempt, o: Output)
  {
    if a.truncated then a.stdout <= o.stdout && a.stderr <= o.stderr else a.stdout == o.stdout && a.stderr == o.stderr
  }

  // The bounded buffers of the two streams, under one truncation flag, capture what
  // was written to them, and so does a result whose captures a size limit emptied.
  lemma BuffersCapture(status: string, checkStatus: string, exit: Option<int>, out: CappedBuffer, err: CappedBuffer)
    requires out.Valid() && err.Valid()
    ensures var o := Output(out.stream, err.stream);
      && Captures(Attempt(status, checkStatus, exit, out.data, err.data, out.truncated || err.truncated), o)
      && Captures(Attempt(status, checkStatus, exit, [], [], true), o)
  {
  }

  datatype Field = StatusField | CheckStatus | ExitCode | Stdout | Stderr

  const FIELDS := [StatusField, CheckStatus, ExitCode, Stdout, Stderr]

  type Digest = seq<Byte> -> string

  // A field as the outcome key holds it: streams by their digest.
  datatype Shown = Text(text: string) | Code(code: Option<int>)

  function Show(a: Attempt, f: Field, digest: Digest): Shown
  {
    match f
    case StatusField => Text(a.status)
    case CheckStatus => Text(a.checkStatus)
    case ExitCode => Code(a.exit)
    case Stdout => Text(digest(a.stdout))
    case Stderr => Text(digest(a.stderr))
  }

  predicate SameKey(a: Attempt, b: Attempt, digest: Digest)
  {
    forall f: Field :: Show(a, f, digest) == Show(b, f, digest)
  }

  // ── summaries ───────────────────────────────────────────────────────────────

  // A side is consistent when every repetition has the outcome of its first.
  method Consistent(side: seq<Attempt>, digest: Digest) returns (consistent: bool)
    ensures consistent <==> forall i, j | 0 <= i < |side| && 0 <= j < |side| :: SameKey(side[i], side[j], digest)
  {
    consistent := true;
    for i := 0 to |side|
      invariant consistent <==> forall j | 0 <= j < i :: SameKey(side[0], side[j], digest)
    {
      if i > 0 {
        var same := EqualKeys(side[0], side[i], digest);
        if !same { consistent := false; }
      }
    }
    if consistent {
      forall i, j | 0 <= i < |side| && 0 <= j < |side|
        ensures SameKey(side[i], side[j], digest)
      {
        assert SameKey(side[0], side[i], digest) && SameKey(side[0], side[j], digest);
      }
    }
  }

  method EqualKeys(a: Attempt, b: Attempt, digest: Digest) returns (equal: bool)
    ensures equal <==> SameKey(a, b, digest)
  {
    equal := a.status == b.status && a.checkStatus == b.checkStatus && digest(a.stdout) == digest(b.stdout)
             && digest(a.stderr) == digest(b.stderr) && a.exit == b.exit;
    if equal {
      forall f: Field
        ensures Show(a, f, digest) == Show(b, f, digest)
      {
        match f case StatusField => case CheckStatus => case ExitCode => case Stdout => case Stderr =>
      }
    } else {
      if a.status != b.status { assert Show(a, StatusField, digest) != Show(b, StatusField, digest); }
      else if a.checkStatus != b.checkStatus { assert Show(a, CheckStatus, digest) != Show(b, CheckStatus, digest); }
      else if a.exit != b.exit { assert Show(a, ExitCode, digest) != Show(b, ExitCode, digest); }
      else if digest(a.stdout) != digest(b.stdout) { assert Show(a, Stdout, digest) != Show(b, Stdout, digest); }
      else { assert Show(a, Stderr, digest) != Show(b, Stderr, digest); }
    }
  }

  // ── what differs provably ───────────────────────────────────────────────────

  // Whether two captures of one stream prove the outputs differ.
  predicate CaptureDiffers(x: seq<Byte>, y: seq<Byte>, truncated: bool)
  {
    if !truncated then x != y
    else var n := if |x| < |y| then |x| else |y|; x[..n] != y[..n]
  }

  predicate Differs(f: Field, b: Attempt, k: Attempt)
  {
    match f
    case StatusField => b.status != k.status
    case CheckStatus => b.checkStatus != k.checkStatus
    case ExitCode => b.exit != k.exit
    case Stdout => CaptureDiffers(b.stdout, k.stdout, b.truncated || k.truncated)
    case Stderr => CaptureDiffers(b.stderr, k.stderr, b.truncated || k.truncated)
  }

  // A field of what really happened.
  predicate TrulyDiffers(f: Field, b: Attempt, bo: Output, k: Attempt, ko: Output)
  {
    match f
    case StatusField => b.status != k.status
    case CheckStatus => b.checkStatus != k.checkStatus
    case ExitCode => b.exit != k.exit
    case Stdout => bo.stdout != ko.stdout
    case Stderr => bo.stderr != ko.stderr
  }

  // Captures that differ where both hold a byte come from outputs that differ.
  lemma PrefixesDiffer(x: seq<Byte>, y: seq<Byte>, xs: seq<Byte>, ys: seq<Byte>)
    requires x <= xs && y <= ys && CaptureDiffers(x, y, true)
    ensures xs != ys
  {
    var n := if |x| < |y| then |x| else |y|;
    assert x[..n] == xs[..n] && y[..n] == ys[..n];
  }

  lemma DiffersIsTrue(f: Field, b: Attempt, bo: Output, k: Attempt, ko: Output)
    requires Captures(b, bo) && Captures(k, ko) && Differs(f, b, k)
    ensures TrulyDiffers(f, b, bo, k, ko)
  {
    if b.truncated || k.truncated {
      if f.Stdout? { PrefixesDiffer(b.stdout, k.stdout, bo.stdout, ko.stdout); }
      if f.Stderr? { PrefixesDiffer(b.stderr, k.stderr, bo.stderr, ko.stderr); }
    }
  }

  // Some outputs the two attempts were captured from agree in the field.
  ghost predicate MayAgree(f: Field, b: Attempt, k: Attempt)
  {
    exists bo, ko :: Captures(b, bo) && Captures(k, ko) && !TrulyDiffers(f, b, bo, k, ko)
  }

  // One side holds its whole stream and the other already captured more than that:
  // such streams cannot be the same.
  predicate Overruns(f: Field, b: Attempt, k: Attempt)
  {
    match f
    case Stdout => Outgrows(b.truncated, b.stdout, k.truncated, k.stdout)
    case Stderr => Outgrows(b.truncated, b.stderr, k.truncated, k.stderr)
    case _ => false
  }

  predicate Outgrows(xCut: bool, x: seq<Byte>, yCut: bool, y: seq<Byte>)
  {
    (!xCut && |x| < |y|) || (!yCut && |y| < |x|)
  }

  lemma CommonStream(xCut: bool, x: seq<Byte>, yCut: bool, y: seq<Byte>) returns (s: seq<Byte>)
    requires !CaptureDiffers(x, y, xCut || yCut) && !Outgrows(xCut, x, yCut, y)
    ensures x <= s && y <= s && (!xCut ==> x == s) && (!yCut ==> y == s)
  {
    s := if |x| < |y| then y else x;
    assert if |x| < |y| then x == x[..|x|] == y[..|x|] else y == y[..|y|] == x[..|y|];
  }

  // Captures that are not told apart may come from the same output exactly unless one
  // is the whole stream and the other is longer; only then is the judgement more
  // careful than it has to be.
  lemma MayAgreeExactly(f: Field, b: Attempt, k: Attempt)
    ensures MayAgree(f, b, k) <==> !Differs(f, b, k) && !Overruns(f, b, k)
  {
    forall bo, ko | Captures(b, bo) && Captures(k, ko) && Differs(f, b, k)
      ensures TrulyDiffers(f, b, bo, k, ko)
    {
      DiffersIsTrue(f, b, bo, k, ko);
    }
    if !Differs(f, b, k) && !Overruns(f, b, k) {
      var bo, ko := Output(b.stdout, b.stderr), Output(k.stdout, k.stderr);
      if f.Stdout? {
        var s := CommonStream(b.truncated, b.stdout, k.truncated, k.stdout);
        bo, ko := bo.(stdout := s), ko.(stdout := s);
      } else if f.Stderr? {
        var s := CommonStream(b.truncated, b.stderr, k.truncated, k.stderr);
        bo, ko := bo.(stderr := s), ko.(stderr := s);
      }
      assert Captures(b, bo) && Captures(k, ko) && !TrulyDiffers(f, b, bo, k, ko);
    }
  }

  ghost predicate ProvenIn(f: Field, baseline: seq<Attempt>, candidate: seq<Attempt>)
  {
    baseline != [] && candidate != [] && forall b, k | b in baseline && k in candidate :: Differs(f, b, k)
  }

  // Some field differs between every baseline and every candidate repetition.
  method ProvenDifference(baseline: seq<Attempt>, candidate: seq<Attempt>) returns (proven: bool)
    ensures proven <==> exists f: Field :: ProvenIn(f, baseline, candidate)
  {
    for n := 0 to |FIELDS|
      invariant forall m | 0 <= m < n :: !ProvenIn(FIELDS[m], baseline, candidate)
    {
      var here := FieldProven(FIELDS[n], baseline, candidate);
      if here { return true; }
    }
    forall f: Field
      ensures !ProvenIn(f, baseline, candidate)
    {
      FieldListed(f);
      var m :| 0 <= m < |FIELDS| && FIELDS[m] == f;
    }
    proven := false;
  }

  lemma FieldListed(f: Field)
    ensures f in FIELDS
  {
    match f
    case StatusField => assert FIELDS[0] == f;
    case CheckStatus => assert FIELDS[1] == f;
    case ExitCode => assert FIELDS[2] == f;
    case Stdout => assert FIELDS[3] == f;
    case Stderr => assert FIELDS[4] == f;
  }

  method FieldProven(f: Field, baseline: seq<Attempt>, candidate: seq<Attempt>) returns (proven: bool)
    ensures proven <==> ProvenIn(f, baseline, candidate)
  {
    proven := |baseline| > 0 && |candidate| > 0;
    for i := 0 to |baseline|
      invariant proven <==> baseline != [] && candidate != []
                            && forall b, k | b in baseline[..i] && k in candidate :: Differs(f, b, k)
    {
      assert baseline[..i + 1] == baseline[..i] + [baseline[i]];
      for j := 0 to |candidate|
        invariant proven <==> baseline != [] && candidate != []
                              && (forall b, k | b in baseline[..i] && k in candidate :: Differs(f, b, k))
                              && forall k | k in candidate[..j] :: Differs(f, baseline[i], k)
      {
        assert candidate[..j + 1] == candidate[..j] + [candidate[j]];
        proven := proven && Differs(f, baseline[i], candidate[j]);
      }
      assert candidate[..|candidate|] == candidate;
    }
    assert baseline[..|baseline|] == baseline;
  }

  // ── the verdict ─────────────────────────────────────────────────────────────

  datatype Difference = Difference(field: Field, baseline: Shown, candidate: Shown)

  ghost predicate PairDiffers(f: Field, baseline: seq<Attempt>, candidate: seq<Attempt>, i: nat, digest: Digest)
  {
    i < |baseline| && i < |candidate| && Show(baseline[i], f, digest) != Show(candidate[i], f, digest)
  }

  // The observed differences: each field once, as it was in the first pair of
  // repetitions that differ in it.
  ghost predicate Observed(ds: seq<Difference>, baseline: seq<Attempt>, candidate: seq<Attempt>, n: nat, digest: Digest)
  {
    && (forall d | d in ds :: exists i :: 0 <= i < n && FirstIn(d, baseline, candidate, i, digest))
    && (forall f: Field, i: nat | i < n && PairDiffers(f, baseline, candidate, i, digest) :: exists d :: d in ds && d.field == f)
    && (forall i, j | 0 <= i < j < |ds| :: ds[i].field != ds[j].field)
  }

  ghost predicate FirstIn(d: Difference, baseline: seq<Attempt>, candidate: seq<Attempt>, i: nat, digest: Digest)
  {
    && PairDiffers(d.field, baseline, candidate, i, digest)
    && d == Difference(d.field, Show(baseline[i], d.field, digest), Show(candidate[i], d.field, digest))
    && forall j: nat | j < i :: !PairDiffers(d.field, baseline, candidate, j, digest)
  }

  // Whichever a proven difference is found in, what really happened differed there in
  // every baseline repetition from every candidate one.
  lemma FalseIsTrue(f: Field, baseline: seq<Attempt>, candidate: seq<Attempt>, bos: seq<Output>, kos: seq<Output>)
    requires ProvenIn(f, baseline, candidate) && |bos| == |baseline| && |kos| == |candidate|
    requires forall i | 0 <= i < |baseline| :: Captures(baseline[i], bos[i])
    requires forall j | 0 <= j < |candidate| :: Captures(candidate[j], kos[j])
    ensures baseline != [] && candidate != []
    ensures forall i, j | 0 <= i < |baseline| && 0 <= j < |candidate| ::
      TrulyDiffers(f, baseline[i], bos[i], candidate[j], kos[j])
  {
    forall i, j | 0 <= i < |baseline| && 0 <= j < |candidate|
      ensures TrulyDiffers(f, baseline[i], bos[i], candidate[j], kos[j])
    {
      assert baseline[i] in baseline && candidate[j] in candidate;
      DiffersIsTrue(f, baseline[i], bos[i], candidate[j], kos[j]);
    }
  }

  // A proven difference decides first; after that, sides that disagree with themselves
  // or cut outputs leave the verdict open. Where neither is the case it is true, and
  // all repetitions of both sides share one outcome.
  method Judge(baseline: seq<Attempt>, candidate: seq<Attempt>, digest: Digest)
    returns (verdict: Option<bool>, differences: seq<Difference>, inconsistent: bool, truncated: bool)
    ensures verdict == Some(false) <==> exists f: Field :: ProvenIn(f, baseline, candidate)
    ensures verdict.None? <==> (inconsistent || truncated) && forall f: Field :: !ProvenIn(f, baseline, candidate)
    ensures verdict == Some(true) ==> differences == [] && forall a | a in baseline + candidate :: !a.truncated
    ensures baseline != [] && candidate != [] ==>
      (verdict == Some(true) <==>
         OneOutcome(baseline, candidate, digest) && !truncated && forall f: Field :: !ProvenIn(f, baseline, candidate))
    // Where a digest tells outputs apart, agreement is all it takes.
    ensures baseline != [] && candidate != [] && Faithful(digest) ==>
      (verdict == Some(true) <==> OneOutcome(baseline, candidate, digest) && !truncated)
    ensures Observed(differences, baseline, candidate, if |baseline| < |candidate| then |baseline| else |candidate|, digest)
    ensures inconsistent <==> Disagrees(baseline, digest) || Disagrees(candidate, digest)
    ensures truncated <==> exists a :: a in baseline + candidate && a.truncated
  {
    AgreeIsConsistent(baseline, candidate, digest);
    if Faithful(digest) && baseline != [] && candidate != [] { AgreeIsUnproven(baseline, candidate, digest); }
    differences := Observe(baseline, candidate, digest);
    var consistentB := Consistent(baseline, digest);
    var consistentK := Consistent(candidate, digest);
    inconsistent := !consistentB || !consistentK;
    truncated := AnyTruncated(baseline + candidate);
    var proven := ProvenDifference(baseline, candidate);
    if proven {
      verdict := Some(false);
    } else if inconsistent || truncated {
      verdict := None;
    } else {
      DefaultIsTrue(baseline, candidate, digest, differences);
      verdict := Some(|differences| == 0);
    }
  }

  // Some two repetitions of a side differ.
  ghost predicate Disagrees(side: seq<Attempt>, digest: Digest)
  {
    exists a, b :: a in side && b in side && !SameKey(a, b, digest)
  }

  ghost predicate Faithful(digest: Digest)
  {
    forall x, y | digest(x) == digest(y) :: x == y
  }

  lemma AgreeIsConsistent(baseline: seq<Attempt>, candidate: seq<Attempt>, digest: Digest)
    ensures OneOutcome(baseline, candidate, digest) ==> !Disagrees(baseline, digest) && !Disagrees(candidate, digest)
    ensures forall side: seq<Attempt> :: Disagrees(side, digest) <==>
      exists i, j :: 0 <= i < |side| && 0 <= j < |side| && !SameKey(side[i], side[j], digest)
  {
    hide SameKey;
  }

  lemma AgreeIsUnproven(baseline: seq<Attempt>, candidate: seq<Attempt>, digest: Digest)
    requires Faithful(digest) && baseline != [] && candidate != []
    ensures OneOutcome(baseline, candidate, digest) ==> forall f: Field :: !ProvenIn(f, baseline, candidate)
  {
    if OneOutcome(baseline, candidate, digest) {
      var b, k := baseline[0], candidate[0];
      assert b in baseline + candidate && k in baseline + candidate && SameKey(b, k, digest);
      forall f: Field
        ensures !ProvenIn(f, baseline, candidate)
      {
        assert Show(b, f, digest) == Show(k, f, digest);
        assert !Differs(f, b, k);
      }
    }
  }

  ghost predicate OneOutcome(baseline: seq<Attempt>, candidate: seq<Attempt>, digest: Digest)
  {
    forall a, b | a in baseline + candidate && b in baseline + candidate :: SameKey(a, b, digest)
  }

  function Pairs(baseline: seq<Attempt>, candidate: seq<Attempt>): nat
  {
    if |baseline| < |candidate| then |baseline| else |candidate|
  }

  method AnyTruncated(side: seq<Attempt>) returns (truncated: bool)
    ensures truncated <==> exists a :: a in side && a.truncated
  {
    truncated := false;
    for i := 0 to |side|
      invariant truncated <==> exists j :: 0 <= j < i && side[j].truncated
    {
      truncated := truncated || side[i].truncated;
    }
  }

  // Lists what the pairs of repetitions differ in, the first occurrence of each field.
  method Observe(baseline: seq<Attempt>, candidate: seq<Attempt>, digest: Digest) returns (ds: seq<Difference>)
    ensures Observed(ds, baseline, candidate, Pairs(baseline, candidate), digest)
  {
    ds := [];
    assert Observed(ds, baseline, candidate, 0, digest);
    hide Observed, Listing, PairDiffers, Show;
    for i := 0 to Pairs(baseline, candidate)
      invariant Observed(ds, baseline, candidate, i, digest)
    {
      NextPair(ds, baseline, candidate, i, digest);
      for m := 0 to |FIELDS|
        invariant Listing(ds, baseline, candidate, i, m, digest)
      {
        var f := FIELDS[m];
        var b, k := Show(baseline[i], f, digest), Show(candidate[i], f, digest);
        if b != k && !exists d | d in ds :: d.field == f {
          Listed(ds, baseline, candidate, i, m, digest);
          ds := ds + [Difference(f, b, k)];
        } else {
          NothingToList(ds, baseline, candidate, i, m, digest);
        }
      }
      AllListed(ds, baseline, candidate, i, digest);
    }
  }

  // Part of the way through the fields of pair i.
  ghost predicate Listing(ds: seq<Difference>, baseline: seq<Attempt>, candidate: seq<Attempt>, i: nat, m: nat,
                          digest: Digest)
  {
    && m <= |FIELDS|
    && (forall d | d in ds :: exists j :: 0 <= j <= i && FirstIn(d, baseline, candidate, j, digest))
    && (forall f: Field, j: nat | (j < i || (j == i && f in FIELDS[..m])) && PairDiffers(f, baseline, candidate, j, digest) ::
          exists d :: d in ds && d.field == f)
    && (forall j, k | 0 <= j < k < |ds| :: ds[j].field != ds[k].field)
  }

  lemma Listed(ds: seq<Difference>, baseline: seq<Attempt>, candidate: seq<Attempt>, i: nat, m: nat, digest: Digest)
    requires m < |FIELDS| && i < |baseline| && i < |candidate| && Listing(ds, baseline, candidate, i, m, digest)
    requires Show(baseline[i], FIELDS[m], digest) != Show(candidate[i], FIELDS[m], digest)
    requires !exists d | d in ds :: d.field == FIELDS[m]
    ensures Listing(ds + [Difference(FIELDS[m], Show(baseline[i], FIELDS[m], digest), Show(candidate[i], FIELDS[m], digest))],
                    baseline, candidate, i, m + 1, digest)
  {
    var f := FIELDS[m];
    var d := Difference(f, Show(baseline[i], f, digest), Show(candidate[i], f, digest));
    assert FirstIn(d, baseline, candidate, i, digest);
    assert d in ds + [d];
    assert FIELDS[..m + 1] == FIELDS[..m] + [f];
    forall e | e in ds
      ensures e in ds + [d]
    {
    }
  }

  lemma NextPair(ds: seq<Difference>, baseline: seq<Attempt>, candidate: seq<Attempt>, i: nat, digest: Digest)
    requires Observed(ds, baseline, candidate, i, digest)
    ensures Listing(ds, baseline, candidate, i, 0, digest)
  {
  }

  lemma NothingToList(ds: seq<Difference>, baseline: seq<Attempt>, candidate: seq<Attempt>, i: nat, m: nat,
                      digest: Digest)
    requires m < |FIELDS| && i < |baseline| && i < |candidate| && Listing(ds, baseline, candidate, i, m, digest)
    requires Show(baseline[i], FIELDS[m], digest) == Show(candidate[i], FIELDS[m], digest)
             || exists d | d in ds :: d.field == FIELDS[m]
    ensures Listing(ds, baseline, candidate, i, m + 1, digest)
  {
    assert FIELDS[..m + 1] == FIELDS[..m] + [FIELDS[m]];
  }

  lemma AllListed(ds: seq<Difference>, baseline: seq<Attempt>, candidate: seq<Attempt>, i: nat, digest: Digest)
    requires Listing(ds, baseline, candidate, i, |FIELDS|, digest)
    ensures Observed(ds, baseline, candidate, i + 1, digest)
  {
    assert FIELDS[..|FIELDS|] == FIELDS;
    forall f: Field
      ensures f in FIELDS
    {
      FieldListed(f);
    }
  }

  lemma ShownDiffers(f: Field, b: Attempt, k: Attempt, digest: Digest)
    requires Show(b, f, digest) != Show(k, f, digest) && !b.truncated && !k.truncated
    ensures Differs(f, b, k)
  {
  }

  // Without a proven difference, consistent and complete sides agree in every pair:
  // the default verdict is never false.
  lemma DefaultIsTrue(baseline: seq<Attempt>, candidate: seq<Attempt>, digest: Digest, ds: seq<Difference>)
    requires forall i, j | 0 <= i < |baseline| && 0 <= j < |baseline| :: SameKey(baseline[i], baseline[j], digest)
    requires forall i, j | 0 <= i < |candidate| && 0 <= j < |candidate| :: SameKey(candidate[i], candidate[j], digest)
    requires forall a | a in baseline + candidate :: !a.truncated
    requires forall f: Field :: !ProvenIn(f, baseline, candidate)
    requires Observed(ds, baseline, candidate, Pairs(baseline, candidate), digest)
    ensures ds == []
    ensures baseline != [] && candidate != [] ==> OneOutcome(baseline, candidate, digest)
  {
    forall f: Field, i: nat
      ensures !PairDiffers(f, baseline, candidate, i, digest)
    {
      if PairDiffers(f, baseline, candidate, i, digest) { PairProves(f, baseline, candidate, i, digest); }
    }
    assert forall d :: d !in ds;
    NoMembers(ds);
    if baseline != [] && candidate != [] {
      assert SameKey(baseline[0], candidate[0], digest) by {
        forall f: Field
          ensures Show(baseline[0], f, digest) == Show(candidate[0], f, digest)
        {
          assert !PairDiffers(f, baseline, candidate, 0, digest);
        }
      }
      forall a | a in baseline + candidate
        ensures SameKey(a, baseline[0], digest)
      {
        var i :| 0 <= i < |baseline + candidate| && (baseline + candidate)[i] == a;
        if i < |baseline| {
          assert SameKey(baseline[i], baseline[0], digest);
        } else {
          assert SameKey(candidate[i - |baseline|], candidate[0], digest);
        }
      }
    }
  }

  lemma NoMembers<T>(s: seq<T>)
    ensures (forall x :: x !in s) ==> s == []
  {
    if s != [] { assert s[0] in s; }
  }

  lemma PairProves(f: Field, baseline: seq<Attempt>, candidate: seq<Attempt>, i: nat, digest: Digest)
    requires forall i, j | 0 <= i < |baseline| && 0 <= j < |baseline| :: SameKey(baseline[i], baseline[j], digest)
    requires forall i, j | 0 <= i < |candidate| && 0 <= j < |candidate| :: SameKey(candidate[i], candidate[j], digest)
    requires forall a | a in baseline + candidate :: !a.truncated
    requires PairDiffers(f, baseline, candidate, i, digest)
    ensures ProvenIn(f, baseline, candidate)
  {
    forall b, k | b in baseline && k in candidate
      ensures Differs(f, b, k)
    {
      var m :| 0 <= m < |baseline| && baseline[m] == b;
      var n :| 0 <= n < |candidate| && candidate[n] == k;
      assert SameKey(baseline[m], baseline[i], digest) && SameKey(candidate[n], candidate[i], digest);
      assert b in baseline + candidate && k in baseline + candidate;
      ShownDiffers(f, b, k, digest);
    }
  }
}
