/**
 The dependency graph (internal/config/config.go, internal/config/explain.go):
 validation, cycle detection, the dependency closure of a selection, and the
 start levels of a plan.
 */
module Graph {
  type Name = string

  datatype Proc = Proc(deps: seq<Name>, task: bool, teardown: bool)

  type Procs = map<Name, Proc>

  // A name that is not configured has no dependencies.
  function Deps(g: Procs, n: Name): seq<Name>
  {
    if n in g then g[n].deps else []
  }

  // ── paths ───────────────────────────────────────────────────────────────────

  ghost predicate Path(g: Procs, p: seq<Name>)
  {
    forall i | 0 <= i < |p| - 1 :: p[i + 1] in Deps(g, p[i])
  }

  // A closed dependency path: it follows edges and ends where it began.
  ghost predicate Cycle(g: Procs, p: seq<Name>)
  {
    |p| >= 2 && p[0] == p[|p| - 1] && Path(g, p)
  }

  ghost predicate Acyclic(g: Procs)
  {
    forall p :: !Cycle(g, p)
  }

  // Every dependency ranks strictly below its dependent.
  ghost predicate Ranked(g: Procs, rank: map<Name, nat>)
  {
    forall n | n in g :: n in rank && forall d | d in g[n].deps :: d in rank && rank[d] < rank[n]
  }

  lemma {:induction false} RankFalls(g: Procs, rank: map<Name, nat>, p: seq<Name>)
    requires Ranked(g, rank) && |p| >= 2 && Path(g, p)
    ensures p[0] in rank && p[|p| - 1] in rank && rank[p[|p| - 1]] < rank[p[0]]
  {
    assert p[1] in Deps(g, p[0]);
    if |p| > 2 {
      assert Path(g, p[1..]) by {
        forall i | 0 <= i < |p[1..]| - 1
          ensures p[1..][i + 1] in Deps(g, p[1..][i])
        {
          assert p[i + 2] in Deps(g, p[i + 1]);
        }
      }
      RankFalls(g, rank, p[1..]);
    }
  }

  lemma RankedIsAcyclic(g: Procs, rank: map<Name, nat>)
    requires Ranked(g, rank)
    ensures Acyclic(g)
  {
    forall p
      ensures !Cycle(g, p)
    {
      if |p| >= 2 && Path(g, p) { RankFalls(g, rank, p); }
    }
  }

  // ── cycle detection ─────────────────────────────────────────────────────────

  datatype Color = Gray | Black

  // Every name the visits can meet.
  ghost predicate Covers(g: Procs, nodes: set<Name>)
  {
    forall n | n in g :: n in nodes && forall d | d in g[n].deps :: d in nodes
  }

  // From the path of the visit to the closing dependency, in forward order.
  method CyclePath(path: seq<Name>, dep: Name) returns (cycle: seq<Name>)
    requires dep in path
    ensures exists k | 0 <= k < |path| :: path[k] == dep && cycle == path[k..] + [dep]
  {
    assert path[0..] == path;
    cycle := [dep];
    var i := |path| - 1;
    while i >= 0
      invariant -1 <= i < |path| && |cycle| == |path| - i && cycle[0] == dep
      invariant forall j | 1 <= j < |cycle| :: cycle[j] == path[|path| - j]
      invariant dep !in path[i + 1..]
    {
      cycle := cycle + [path[i]];
      if path[i] == dep { break; }
      i := i - 1;
    }
    ghost var k, built := i, cycle;
    var lo, hi := 0, |cycle| - 1;
    while lo < hi
      invariant 0 <= lo <= |built| && lo + hi == |built| - 1 && |cycle| == |built|
      invariant forall j | 0 <= j < lo || hi < j < |built| :: cycle[j] == built[|built| - 1 - j]
      invariant forall j | lo <= j <= hi :: cycle[j] == built[j]
    {
      cycle := cycle[lo := cycle[hi]][hi := cycle[lo]];
      lo, hi := lo + 1, hi - 1;
    }
    assert path[k] == dep && cycle == path[k..] + [dep];
  }

  // Gray is the path of the visit.
  ghost predicate GrayIsPath(color: map<Name, Color>, path: seq<Name>)
  {
    forall n :: n in path <==> n in color && color[n].Gray?
  }

  ghost predicate BlackIsFinished(color: map<Name, Color>, finished: map<Name, nat>)
  {
    forall n :: n in finished <==> n in color && color[n].Black?
  }

  // What finished depends only on what finished before it.
  ghost predicate FinishedInOrder(g: Procs, finished: map<Name, nat>)
  {
    && (forall n | n in finished :: finished[n] < |finished|)
    && forall n | n in finished :: forall d | d in Deps(g, n) :: d in finished && finished[d] < finished[n]
  }

  ghost predicate Exploring(g: Procs, color: map<Name, Color>, path: seq<Name>, finished: map<Name, nat>)
  {
    && Path(g, path)
    && GrayIsPath(color, path) && BlackIsFinished(color, finished) && FinishedInOrder(g, finished)
  }

  lemma EnterKeeps(g: Procs, color: map<Name, Color>, path: seq<Name>, finished: map<Name, nat>, name: Name)
    requires Exploring(g, color, path, finished) && name !in color
    requires MayFollow(g, path, name)
    ensures Exploring(g, color[name := Gray], path + [name], finished) && name !in path
  {
    assert GrayIsPath(color[name := Gray], path + [name]) by { hide Path, BlackIsFinished, FinishedInOrder; }
    assert Path(g, path + [name]) by { hide GrayIsPath, BlackIsFinished, FinishedInOrder; }
    assert BlackIsFinished(color[name := Gray], finished) by { hide Path, GrayIsPath, FinishedInOrder; }
  }

  lemma LeaveKeeps(g: Procs, color: map<Name, Color>, path: seq<Name>, finished: map<Name, nat>, name: Name)
    requires Exploring(g, color, path + [name], finished) && name !in path
    requires forall d | d in Deps(g, name) :: d in finished
    ensures Exploring(g, color[name := Black], path, finished[name := |finished|])
    ensures name !in finished
  {
    assert name in path + [name];
    assert GrayIsPath(color[name := Black], path) by {
      forall n
        ensures n in path <==> n in color[name := Black] && color[name := Black][n].Gray?
      {
        assert n in path + [name] <==> n in path || n == name;
      }
    }
    assert Path(g, path) by {
      forall i | 0 <= i < |path| - 1
        ensures path[i + 1] in Deps(g, path[i])
      {
        assert (path + [name])[i + 1] in Deps(g, (path + [name])[i]);
      }
    }
  }

  lemma UnvisitedFalls(nodes: set<Name>, visited: set<Name>, n: Name, left: nat)
    requires |nodes - visited| <= left && n in nodes && n !in visited
    ensures left > 0 && |nodes - (visited + {n})| <= left - 1
  {
    assert nodes - visited == (nodes - (visited + {n})) + {n};
  }

  // n continues the path.
  ghost predicate MayFollow(g: Procs, path: seq<Name>, n: Name)
  {
    path != [] ==> n in Deps(g, path[|path| - 1])
  }

  ghost predicate EndsAt(path: seq<Name>, n: Name)
  {
    path != [] && path[|path| - 1] == n
  }

  ghost predicate FirstIn(ns: seq<Name>, k: nat, s: set<Name>)
    requires k <= |ns|
  {
    forall j | 0 <= j < k :: ns[j] in s
  }

  lemma AnotherIn(ns: seq<Name>, k: nat, s: set<Name>, s': set<Name>)
    requires k < |ns| && FirstIn(ns, k, s) && s <= s' && ns[k] in s'
    ensures FirstIn(ns, k + 1, s')
  {
  }

  lemma AllIn(ns: seq<Name>, s: set<Name>)
    requires FirstIn(ns, |ns|, s)
    ensures forall n | n in ns :: n in s
  {
  }

  class Detector {
    const procs: Procs
    ghost const nodes: set<Name>
    var color: map<Name, Color>
    var path: seq<Name>
    // When each finished visit finished.
    ghost var finished: map<Name, nat>

    constructor (procs: Procs, ghost nodes: set<Name>)
      ensures this.procs == procs && this.nodes == nodes && color == map[] && path == [] && finished == map[]
    {
      this.procs, this.nodes, color, path, finished := procs, nodes, map[], [], map[];
    }

    ghost predicate Valid()
      reads this
    {
      Covers(procs, nodes) && Exploring(procs, color, path, finished)
    }

    // At most `left` names are still to be visited.
    ghost predicate Within(left: nat)
      reads this
    {
      |nodes - color.Keys| <= left
    }

    // Visits an unvisited name. Without a cycle everything visited is finished
    // and the path is as before.
    method Visit(name: Name, ghost left: nat) returns (cycle: seq<Name>)
      requires Valid() && Within(left) && name !in color && name in nodes
      requires MayFollow(procs, path, name)
      modifies this
      ensures cycle != [] ==> Cycle(procs, cycle)
      ensures cycle == [] ==> Valid() && Within(left) && path == old(path)
      ensures cycle == [] ==> name in finished && old(finished.Keys) <= finished.Keys
      decreases left, 0
    {
      hide Valid, Within, Cycle, MayFollow;
      ghost var outer := path;
      Enter(name, left);
      cycle := FollowAll(name, left - 1);
      if cycle == [] { Leave(name, outer, left); }
    }

    // Follows every dependency of the name being visited, in order.
    method FollowAll(name: Name, ghost left: nat) returns (cycle: seq<Name>)
      requires Valid() && Within(left) && EndsAt(path, name)
      modifies this
      ensures cycle != [] ==> Cycle(procs, cycle)
      ensures cycle == [] ==> Valid() && Within(left) && path == old(path)
      ensures cycle == [] ==> FirstIn(Deps(procs, name), |Deps(procs, name)|, finished.Keys)
      ensures cycle == [] ==> old(finished.Keys) <= finished.Keys
      decreases left, 2
    {
      var deps := Deps(procs, name);
      assert FirstIn(deps, 0, finished.Keys);
      hide Valid, Within, Cycle, FirstIn, Deps, EndsAt;
      ghost var outer, known := path, finished.Keys;
      cycle := [];
      for i := 0 to |deps|
        invariant cycle == [] && Valid() && Within(left) && path == outer
        invariant known <= finished.Keys && FirstIn(deps, i, finished.Keys)
      {
        ghost var before := finished.Keys;
        assert deps[i] in deps;
        cycle := Follow(name, deps[i], left);
        if cycle != [] { return; }
        AnotherIn(deps, i, before, finished.Keys);
      }
    }

    // Follows one dependency of the name being visited.
    method Follow(name: Name, dep: Name, ghost left: nat) returns (cycle: seq<Name>)
      requires Valid() && Within(left) && EndsAt(path, name) && dep in Deps(procs, name)
      modifies this
      ensures cycle != [] ==> Cycle(procs, cycle)
      ensures cycle == [] ==> Valid() && Within(left) && path == old(path)
      ensures cycle == [] ==> dep in finished && old(finished.Keys) <= finished.Keys
      decreases left, 1
    {
      NodeOfDependency(procs, nodes, name, dep);
      assert MayFollow(procs, path, dep);
      hide Exploring, Covers, Cycle, Within, Deps, EndsAt, MayFollow;
      cycle := [];
      if dep in color {
        KnownNode(procs, color, path, finished, dep);
        if color[dep].Gray? { cycle := CloseCycle(name, dep); }
      } else {
        cycle := Visit(dep, left);
      }
    }

    method CloseCycle(name: Name, dep: Name) returns (cycle: seq<Name>)
      requires Valid() && EndsAt(path, name) && dep in path && dep in Deps(procs, name)
      ensures cycle != [] && Cycle(procs, cycle)
    {
      hide Exploring, Cycle;
      cycle := CyclePath(path, dep);
      ghost var k :| 0 <= k < |path| && path[k] == dep && cycle == path[k..] + [dep];
      Closes(procs, color, path, finished, k, cycle);
    }

    method Enter(name: Name, ghost left: nat)
      requires Valid() && Within(left) && name !in color && name in nodes
      requires MayFollow(procs, path, name)
      modifies this`color, this`path
      ensures Valid() && left > 0 && Within(left - 1) && path == old(path) + [name] && name !in old(path)
    {
      hide Exploring, Covers, Deps, MayFollow;
      EnterKeeps(procs, color, path, finished, name);
      UnvisitedFalls(nodes, color.Keys, name, left);
      ghost var visited := color.Keys;
      color, path := color[name := Gray], path + [name];
      assert color.Keys == visited + {name};
    }

    method Leave(name: Name, ghost outer: seq<Name>, ghost left: nat)
      requires Valid() && left > 0 && Within(left - 1) && path == outer + [name] && name !in outer
      requires FirstIn(Deps(procs, name), |Deps(procs, name)|, finished.Keys)
      modifies this
      ensures Valid() && Within(left) && path == outer
      ensures name in finished && old(finished.Keys) <= finished.Keys
    {
      AllIn(Deps(procs, name), finished.Keys);
      OnPath(procs, color, path, finished, name);
      hide Exploring;
      path := path[..|path| - 1];
      assert path == outer;
      LeaveKeeps(procs, color, path, finished, name);
      finished := finished[name := |finished|];
      color := color[name := Black];
      assert color.Keys == old(color.Keys);
    }

    method Detect(names: seq<Name>) returns (cycle: seq<Name>)
      requires Valid() && path == [] && forall n :: n in procs <==> n in names
      modifies this
      ensures cycle != [] ==> Cycle(procs, cycle)
      ensures cycle == [] ==> Ranked(procs, finished)
    {
      for i := 0 to |names|
        invariant Valid() && path == [] && forall j | 0 <= j < i :: names[j] in finished
      {
        if names[i] in color { KnownNode(procs, color, path, finished, names[i]); }
        hide Exploring;
        if names[i] !in color {
          assert names[i] in procs;
          cycle := Visit(names[i], |nodes - color.Keys|);
          if cycle != [] { return; }
        }
      }
      cycle := [];
      AllFinished(procs, finished);
    }
  }

  lemma OnPath(g: Procs, color: map<Name, Color>, path: seq<Name>, finished: map<Name, nat>, n: Name)
    requires Exploring(g, color, path, finished) && n in path
    ensures n in color
  {
  }

  // A visited name is on the path or finished.
  lemma KnownNode(g: Procs, color: map<Name, Color>, path: seq<Name>, finished: map<Name, nat>, n: Name)
    requires Exploring(g, color, path, finished) && n in color
    ensures if color[n].Gray? then n in path else n in finished
  {
  }

  lemma NodeOfDependency(g: Procs, nodes: set<Name>, n: Name, d: Name)
    requires Covers(g, nodes) && d in Deps(g, n)
    ensures d in nodes
  {
  }

  lemma AllFinished(g: Procs, finished: map<Name, nat>)
    requires FinishedInOrder(g, finished) && forall n | n in g :: n in finished
    ensures Ranked(g, finished)
  {
    forall n | n in g
      ensures forall d | d in g[n].deps :: d in finished && finished[d] < finished[n]
    {
      assert Deps(g, n) == g[n].deps;
    }
  }

  lemma Shrinks(a: set<Name>, b: set<Name>)
    ensures a < b ==> |a| < |b|
    ensures a <= b ==> |a| <= |b|
  {
    if a <= b {
      assert b == a + (b - a) && |b| == |a| + |b - a|;
    }
  }

  lemma Closes(g: Procs, color: map<Name, Color>, path: seq<Name>, finished: map<Name, nat>, k: nat, cycle: seq<Name>)
    requires Exploring(g, color, path, finished) && k < |path| && cycle == path[k..] + [path[k]]
    requires path[k] in Deps(g, path[|path| - 1])
    ensures Cycle(g, cycle)
  {
    forall i | 0 <= i < |cycle| - 1
      ensures cycle[i + 1] in Deps(g, cycle[i])
    {
      if i + 1 < |path| - k { assert path[k + i + 1] in Deps(g, path[k + i]); }
    }
  }

  // Succeeds exactly when the graph is acyclic, with a ranking as its witness;
  // otherwise reports a real closed path.
  method DetectCycles(procs: Procs, names: seq<Name>) returns (cycle: seq<Name>, ghost rank: map<Name, nat>)
    requires forall n :: n in procs <==> n in names
    ensures cycle == [] <==> Acyclic(procs)
    ensures cycle == [] ==> Ranked(procs, rank)
    ensures cycle != [] ==> Cycle(procs, cycle)
  {
    ghost var nodes := procs.Keys + set n, d | n in procs && d in procs[n].deps :: d;
    var detector := new Detector(procs, nodes);
    cycle := detector.Detect(names);
    rank := detector.finished;
    if cycle == [] { RankedIsAcyclic(procs, rank); }
  }

  // ── validation ──────────────────────────────────────────────────────────────

  datatype DependencyError =
    | SelfDependency(name: Name)
    | UnknownDependency(name: Name, dep: Name)
    | TeardownDependency(name: Name, dep: Name)
    | DependencyCycle(path: seq<Name>)

  datatype Checked = Sound | Unsound(error: DependencyError)

  predicate Supplied(g: Procs, n: Name, d: Name)
  {
    d != n && d in g && !g[d].teardown
  }

  // Every dependency is another configured process that runs with the stack.
  ghost predicate Closed(g: Procs)
  {
    forall n | n in g :: forall d | d in g[n].deps :: Supplied(g, n, d)
  }

  ghost predicate TrueError(g: Procs, e: DependencyError)
  {
    match e
    case SelfDependency(n) => n in Deps(g, n)
    case UnknownDependency(n, d) => d in Deps(g, n) && d !in g
    case TeardownDependency(n, d) => d in Deps(g, n) && d in g && g[d].teardown
    case DependencyCycle(p) => Cycle(g, p)
  }

  // The dependency checks of loading a configuration.
  method CheckDependencies(g: Procs, names: seq<Name>) returns (r: Checked, ghost rank: map<Name, nat>)
    requires forall n :: n in g <==> n in names
    ensures r.Sound? <==> Closed(g) && Acyclic(g)
    ensures r.Sound? ==> Ranked(g, rank)
    ensures r.Unsound? ==> TrueError(g, r.error)
  {
    rank := map[];
    for i := 0 to |names|
      invariant forall j | 0 <= j < i :: forall d | d in g[names[j]].deps :: Supplied(g, names[j], d)
    {
      var n := names[i];
      assert n in g;
      for k := 0 to |g[n].deps|
        invariant forall l | 0 <= l < k :: Supplied(g, n, g[n].deps[l])
      {
        var d := g[n].deps[k];
        assert d in g[n].deps;
        if d == n { return Unsound(SelfDependency(n)), rank; }
        if d !in g { return Unsound(UnknownDependency(n, d)), rank; }
        if g[d].teardown { return Unsound(TeardownDependency(n, d)), rank; }
      }
    }
    var cycle;
    cycle, rank := DetectCycles(g, names);
    r := if cycle == [] then Sound else Unsound(DependencyCycle(cycle));
  }

  // ── selection ───────────────────────────────────────────────────────────────

  predicate Eligible(g: Procs, n: Name)
  {
    n in g && !g[n].teardown
  }

  // Holds every eligible dependency of what it holds.
  ghost predicate DependencyClosed(g: Procs, s: set<Name>)
  {
    forall n, d | n in s && d in Deps(g, n) && Eligible(g, d) :: d in s
  }

  // The least dependency-closed set holding the eligible roots.
  ghost predicate ClosureOf(g: Procs, roots: set<Name>, s: set<Name>)
  {
    && DependencyClosed(g, s)
    && (forall n | n in s :: Eligible(g, n))
    && (forall n | n in roots && Eligible(g, n) :: n in s)
    && forall c: set<Name> | DependencyClosed(g, c) && (forall n | n in roots && Eligible(g, n) :: n in c) :: s <= c
  }

  class Selection {
    const procs: Procs
    var selected: set<Name>

    constructor (procs: Procs)
      ensures this.procs == procs && selected == {}
    {
      this.procs, selected := procs, {};
    }

    // Adds a name and everything it needs, and nothing else.
    method Include(name: Name)
      requires selected <= procs.Keys
      modifies this
      ensures old(selected) <= selected <= procs.Keys
      ensures Eligible(procs, name) ==> name in selected
      ensures Complete(procs, old(selected), selected)
      ensures Implied(procs, old(selected) + Wanted(procs, name), selected)
      decreases |procs.Keys - selected|
    {
      if name in selected || !Eligible(procs, name) { return; }
      ghost var rest := procs.Keys - selected;
      ghost var base := selected + {name};
      selected := selected + {name};
      Shrinks(procs.Keys - selected, rest);
      var deps := procs[name].deps;
      for i := 0 to |deps|
        invariant base <= selected <= procs.Keys
        invariant forall j | 0 <= j < i && Eligible(procs, deps[j]) :: deps[j] in selected
        invariant Complete(procs, base, selected) && Implied(procs, base, selected)
      {
        ghost var before := selected;
        Shrinks(procs.Keys - selected, rest - {name});
        Shrinks(rest - {name}, rest);
        Include(deps[i]);
        hide Complete, Implied;
        CompleteTransitive(procs, base, before, selected);
        ImpliedThrough(procs, base, name, deps[i], before, selected);
      }
      AddCompletes(procs, old(selected), name, selected);
    }
  }

  function Wanted(g: Procs, n: Name): set<Name>
  {
    if Eligible(g, n) then {n} else {}
  }

  // What was added to base is eligible and has its dependencies with it.
  ghost predicate Complete(g: Procs, base: set<Name>, s: set<Name>)
  {
    forall n | n in s && n !in base :: Eligible(g, n) && forall d | d in Deps(g, n) && Eligible(g, d) :: d in s
  }

  // Whatever holds base and is dependency-closed holds s.
  ghost predicate Implied(g: Procs, base: set<Name>, s: set<Name>)
  {
    forall c: set<Name> | DependencyClosed(g, c) && base <= c :: s <= c
  }

  lemma CompleteTransitive(g: Procs, a: set<Name>, b: set<Name>, c: set<Name>)
    requires a <= b <= c && Complete(g, a, b) && Complete(g, b, c)
    ensures Complete(g, a, c)
  {
  }

  lemma AddCompletes(g: Procs, base: set<Name>, name: Name, s: set<Name>)
    requires Eligible(g, name) && name in s && Complete(g, base + {name}, s)
    requires forall j | 0 <= j < |g[name].deps| && Eligible(g, g[name].deps[j]) :: g[name].deps[j] in s
    ensures Complete(g, base, s)
  {
  }

  lemma ImpliedThrough(g: Procs, base: set<Name>, name: Name, dep: Name, s: set<Name>, s': set<Name>)
    requires name in base && dep in Deps(g, name) && Implied(g, base, s) && Implied(g, s + Wanted(g, dep), s')
    ensures Implied(g, base, s')
  {
    forall c: set<Name> | DependencyClosed(g, c) && base <= c
      ensures s' <= c
    {
      assert s <= c && Wanted(g, dep) <= c;
    }
  }

  lemma ImpliedByRoots(g: Procs, roots: set<Name>, more: set<Name>, s: set<Name>, s': set<Name>)
    requires Implied(g, roots, s) && Implied(g, s + more, s')
    ensures Implied(g, roots + more, s')
  {
  }

  lemma ClosureHolds(g: Procs, roots: set<Name>, wanted: set<Name>, s: set<Name>)
    requires Complete(g, {}, s) && Implied(g, wanted, s) && wanted <= s
    requires forall n :: n in wanted <==> n in roots && Eligible(g, n)
    ensures ClosureOf(g, roots, s)
  {
    forall c: set<Name> | DependencyClosed(g, c) && (forall n | n in roots && Eligible(g, n) :: n in c)
      ensures s <= c
    {
      assert wanted <= c;
    }
  }

  // The dependency closure of a filter, in name order; every process when the
  // filter is empty.
  method SelectedNames(g: Procs, names: seq<Name>, filter: seq<Name>) returns (r: seq<Name>, ghost s: set<Name>)
    requires (forall n :: n in g <==> n in names) && Distinct(names)
    ensures ClosureOf(g, if filter == [] then g.Keys else (set n | n in filter), s)
    ensures (forall n :: n in r <==> n in s) && Distinct(r) && r == Among(names, s)
  {
    var roots := if filter == [] then names else filter;
    var selection := new Selection(g);
    ghost var wanted: set<Name> := {};
    for i := 0 to |roots|
      invariant wanted <= selection.selected <= g.Keys
      invariant forall n :: n in wanted <==> n in roots[..i] && Eligible(g, n)
      invariant Complete(g, {}, selection.selected) && Implied(g, wanted, selection.selected)
    {
      ghost var before := selection.selected;
      selection.Include(roots[i]);
      hide Complete, Implied;
      CompleteTransitive(g, {}, before, selection.selected);
      ImpliedByRoots(g, wanted, Wanted(g, roots[i]), before, selection.selected);
      wanted := wanted + Wanted(g, roots[i]);
    }
    assert roots[..|roots|] == roots;
    ClosureHolds(g, if filter == [] then g.Keys else (set n | n in filter), wanted, selection.selected);
    s := selection.selected;
    r := InNameOrder(names, selection.selected);
  }

  // The names of a set in the order of the list.
  ghost function Among(names: seq<Name>, s: set<Name>): seq<Name>
  {
    if names == [] then []
    else
      var n := names[|names| - 1];
      Among(names[..|names| - 1], s) + if n in s then [n] else []
  }

  method InNameOrder(names: seq<Name>, s: set<Name>) returns (r: seq<Name>)
    requires Distinct(names) && forall n | n in s :: n in names
    ensures (forall n :: n in r <==> n in s) && Distinct(r) && r == Among(names, s)
  {
    r := [];
    for i := 0 to |names|
      invariant r == Among(names[..i], s)
      invariant (forall n :: n in r <==> n in s && n in names[..i]) && Distinct(r)
    {
      NextName(names, i);
      assert names[..i + 1][..i] == names[..i];
      if names[i] in s { r := r + [names[i]]; }
    }
    assert names[..|names|] == names;
  }

  // ── start levels ────────────────────────────────────────────────────────────

  // A name's level is one above its highest dependency.
  ghost predicate LevelOf(g: Procs, level: map<Name, nat>, n: Name)
  {
    && n in level && (forall d | d in Deps(g, n) :: d in level && level[d] < level[n])
    && (level[n] > 0 ==> exists d :: d in Deps(g, n) && d in level && level[d] == level[n] - 1)
  }

  ghost predicate Levelled(g: Procs, level: map<Name, nat>)
  {
    forall n | n in level :: LevelOf(g, level, n)
  }

  // Levels are determined by the graph: any two ways of levelling agree.
  lemma {:induction false} LevelsAgree(g: Procs, rank: map<Name, nat>, a: map<Name, nat>, b: map<Name, nat>, n: Name)
    requires Ranked(g, rank) && Closed(g) && Levelled(g, a) && Levelled(g, b) && n in a && n in b && n in g
    ensures a[n] == b[n]
    decreases rank[n], 1
  {
    NotHigher(g, rank, a, b, n);
    NotHigher(g, rank, b, a, n);
  }

  lemma {:induction false} NotHigher(g: Procs, rank: map<Name, nat>, a: map<Name, nat>, b: map<Name, nat>, n: Name)
    requires Ranked(g, rank) && Closed(g) && Levelled(g, a) && Levelled(g, b) && n in a && n in b && n in g
    ensures a[n] <= b[n]
    decreases rank[n], 0
  {
    assert LevelOf(g, a, n) && LevelOf(g, b, n);
    if a[n] > 0 {
      var d :| d in Deps(g, n) && d in a && a[d] == a[n] - 1;
      assert d in g[n].deps && Supplied(g, n, d) && rank[d] < rank[n];
      assert d in b && b[d] < b[n];
      NotHigher(g, rank, a, b, d);
    }
  }

  // Every level assigned before is kept.
  ghost predicate Kept(level: map<Name, nat>, level': map<Name, nat>)
  {
    forall n | n in level :: n in level' && level'[n] == level[n]
  }

  // What was assigned since ranks below the bound.
  ghost predicate NewBelow(rank: map<Name, nat>, level: map<Name, nat>, level': map<Name, nat>, bound: nat)
  {
    forall n | n in level' && n !in level :: n in rank && rank[n] < bound
  }

  lemma GrowthComposes(rank: map<Name, nat>, a: map<Name, nat>, b: map<Name, nat>, c: map<Name, nat>, bound: nat, low: nat)
    requires Kept(a, b) && Kept(b, c) && NewBelow(rank, a, b, bound) && NewBelow(rank, b, c, low) && low <= bound
    ensures Kept(a, c) && NewBelow(rank, a, c, bound)
  {
  }

  lemma RankOfDependency(g: Procs, rank: map<Name, nat>, n: Name, d: Name)
    requires Closed(g) && Ranked(g, rank) && n in g && d in g[n].deps
    ensures d in g && n in rank && d in rank && rank[d] < rank[n]
  {
    assert Supplied(g, n, d);
  }

  class Planner {
    const procs: Procs
    var level: map<Name, nat>

    constructor (procs: Procs)
      ensures this.procs == procs && level == map[]
    {
      this.procs, level := procs, map[];
    }

    // The memoised depth recursion; a ranking is what makes it end.
    method Depth(name: Name, ghost rank: map<Name, nat>) returns (l: nat)
      requires Closed(procs) && Ranked(procs, rank) && Levelled(procs, level) && name in procs
      modifies this
      ensures Levelled(procs, level) && name in level && level[name] == l
      ensures Kept(old(level), level) && NewBelow(rank, old(level), level, rank[name] + 1)
      decreases rank[name]
    {
      assert name in rank;
      hide Closed, Ranked, Levelled, Kept, NewBelow, Highest, Deps;
      NoGrowth(rank, level, rank[name]);
      var deps := procs[name].deps;
      assert Deps(procs, name) == deps by { DepsOf(procs, name); }
      if name in level { return level[name]; }
      ghost var start := level;
      l := 0;
      assert deps[..0] == [];
      for i := 0 to |deps|
        invariant Levelled(procs, level) && Kept(start, level) && NewBelow(rank, start, level, rank[name])
        invariant Highest(level, deps[..i], l)
      {
        ghost var before := level;
        assert deps[i] in deps;
        RankOfDependency(procs, rank, name, deps[i]);
        var d := Depth(deps[i], rank);
        GrowthComposes(rank, start, before, level, rank[name], rank[deps[i]] + 1);
        HighestKept(before, level, deps[..i], l);
        HighestExtends(level, deps, i, l);
        l := if d + 1 > l then d + 1 else l;
      }
      assert deps[..|deps|] == deps;
      AssignKeeps(procs, rank, start, level, name, l);
      level := level[name := l];
    }
  }

  lemma DepsOf(g: Procs, n: Name)
    requires n in g
    ensures Deps(g, n) == g[n].deps
  {
  }

  lemma NoGrowth(rank: map<Name, nat>, level: map<Name, nat>, bound: nat)
    ensures Kept(level, level) && NewBelow(rank, level, level, bound) && NewBelow(rank, level, level, bound + 1)
    ensures Highest(level, [], 0)
  {
  }

  lemma AssignKeeps(g: Procs, rank: map<Name, nat>, start: map<Name, nat>, level: map<Name, nat>, name: Name, l: nat)
    requires name in rank && name !in start && Levelled(g, level) && Highest(level, Deps(g, name), l)
    requires Kept(start, level) && NewBelow(rank, start, level, rank[name])
    ensures name !in level && Levelled(g, level[name := l])
    ensures Kept(start, level[name := l]) && NewBelow(rank, start, level[name := l], rank[name] + 1)
  {
    LevelAdded(g, level, name, l);
  }

  // l is one above the highest of the names, or 0 when there is none.
  ghost predicate Highest(level: map<Name, nat>, ns: seq<Name>, l: nat)
  {
    && (forall n | n in ns :: n in level && level[n] < l)
    && (l > 0 ==> exists n :: n in ns && n in level && level[n] == l - 1)
  }

  lemma HighestKept(level: map<Name, nat>, level': map<Name, nat>, ns: seq<Name>, l: nat)
    requires Highest(level, ns, l) && Kept(level, level')
    ensures Highest(level', ns, l)
  {
  }

  lemma HighestExtends(level: map<Name, nat>, ns: seq<Name>, i: nat, l: nat)
    requires i < |ns| && Highest(level, ns[..i], l) && ns[i] in level
    ensures Highest(level, ns[..i + 1], if level[ns[i]] + 1 > l then level[ns[i]] + 1 else l)
  {
    assert ns[..i + 1] == ns[..i] + [ns[i]];
  }

  lemma LevelAdded(g: Procs, level: map<Name, nat>, name: Name, l: nat)
    requires Levelled(g, level) && name !in level && Highest(level, Deps(g, name), l)
    ensures Levelled(g, level[name := l])
  {
    var level' := level[name := l];
    forall n | n in level'
      ensures LevelOf(g, level', n)
    {
      if n != name { assert LevelOf(g, level, n); }
    }
  }

  // The names at one level, in their order.
  ghost function AtLevel(names: seq<Name>, level: map<Name, nat>, l: nat): (r: seq<Name>)
    ensures forall n :: n in r <==> n in names && n in level && level[n] == l
  {
    if names == [] then []
    else
      var n := names[|names| - 1];
      AtLevel(names[..|names| - 1], level, l) + if n in level && level[n] == l then [n] else []
  }

  lemma {:induction false} AtLevelKept(names: seq<Name>, level: map<Name, nat>, level': map<Name, nat>, l: nat)
    requires Kept(level, level') && forall n | n in names :: n in level
    ensures AtLevel(names, level', l) == AtLevel(names, level, l)
  {
    if names != [] {
      AtLevelKept(names[..|names| - 1], level, level', l);
      assert names[|names| - 1] in names;
    }
  }

  // A plan: the closure grouped by level.
  ghost predicate Partition(levels: seq<seq<Name>>, level: map<Name, nat>, names: seq<Name>)
  {
    && (forall l | 0 <= l < |levels| :: forall n :: n in levels[l] <==> n in names && n in level && level[n] == l)
    && (forall l | 0 <= l < |levels| :: Distinct(levels[l]))
    && (forall n | n in names :: n in level && level[n] < |levels|)
  }

  // Each level is in name order.
  ghost predicate Ordered(levels: seq<seq<Name>>, level: map<Name, nat>, names: seq<Name>)
  {
    forall l | 0 <= l < |levels| :: levels[l] == AtLevel(names, level, l)
  }

  lemma PlaceOrders(before: seq<seq<Name>>, levels: seq<seq<Name>>, level: map<Name, nat>, names: seq<Name>, name: Name)
    requires Partition(before, level, names) && Ordered(before, level, names) && name in level
    requires |before| <= |levels| && levels[..|before|] == before && level[name] < |levels|
    requires forall k | |before| <= k < |levels| :: levels[k] == []
    ensures Ordered(levels[level[name] := levels[level[name]] + [name]], level, names + [name])
  {
    var levels' := levels[level[name] := levels[level[name]] + [name]];
    assert (names + [name])[..|names|] == names && (names + [name])[|names|] == name;
    forall l | 0 <= l < |levels'|
      ensures levels'[l] == AtLevel(names + [name], level, l)
    {
      hide Distinct;
      assert levels[l] == AtLevel(names, level, l) by {
        if l < |before| {
          assert levels[l] == levels[..|before|][l];
        } else {
          NobodyAt(names, level, l);
        }
      }
    }
  }

  lemma NobodyAt(names: seq<Name>, level: map<Name, nat>, l: nat)
    requires forall n | n in names :: n in level && level[n] != l
    ensures AtLevel(names, level, l) == []
  {
    assert forall n :: n !in AtLevel(names, level, l);
  }

  ghost predicate Distinct(ns: seq<Name>)
  {
    forall i, j | 0 <= i < j < |ns| :: ns[i] != ns[j]
  }

  lemma OneBelow(g: Procs, level: map<Name, nat>, names: seq<Name>, n: Name) returns (d: Name)
    requires Levelled(g, level) && n in names && n in level && level[n] > 0
    requires n in g && forall d | d in g[n].deps :: d in names
    ensures d in names && d in level && level[d] == level[n] - 1
  {
    assert LevelOf(g, level, n);
    d :| d in Deps(g, n) && d in level && level[d] == level[n] - 1;
  }

  // A level above 0 holds a dependent of the level below, so none is empty.
  lemma NoLevelEmpty(g: Procs, level: map<Name, nat>, levels: seq<seq<Name>>, names: seq<Name>, top: nat)
    requires Levelled(g, level) && Partition(levels, level, names) && top < |levels| && levels[top] != []
    requires forall n | n in names :: n in g && forall d | d in g[n].deps :: d in names
    ensures forall l | 0 <= l <= top :: levels[l] != []
  {
    if top > 0 {
      var n := levels[top][0];
      assert n in levels[top];
      var d := OneBelow(g, level, names, n);
      assert d in levels[top - 1];
      NoLevelEmpty(g, level, levels, names, top - 1);
    }
  }

  // Adds a name to its level, growing the list of levels up to it.
  method Place(before: seq<seq<Name>>, l: nat, name: Name, ghost level: map<Name, nat>, ghost names: seq<Name>)
    returns (levels: seq<seq<Name>>)
    requires Partition(before, level, names) && name in level && level[name] == l && name !in names
    requires before != [] ==> before[|before| - 1] != []
    requires Ordered(before, level, names)
    ensures Ordered(levels, level, names + [name])
    ensures Partition(levels, level, names + [name]) && levels != [] && levels[|levels| - 1] != []
  {
    hide Partition, Ordered;
    levels := before;
    while |levels| <= l
      invariant |before| <= |levels| && levels[..|before|] == before
      invariant forall k | |before| <= k < |levels| :: levels[k] == []
      invariant |levels| <= l + 1 || |levels| == |before|
    {
      levels := levels + [[]];
    }
    PlaceKeeps(before, levels, level, names, name);
    PlaceOrders(before, levels, level, names, name);
    assert |levels| > |before| ==> |levels| == l + 1;
    assert |levels| == |before| ==> levels == before;
    levels := levels[l := levels[l] + [name]];
  }

  // Resolves a selection into start levels: they partition the closure, none is
  // empty, and every dependency is on a strictly lower level than its dependent.
  method Plan(g: Procs, names: seq<Name>, filter: seq<Name>, ghost rank: map<Name, nat>)
    returns (levels: seq<seq<Name>>, ghost closure: set<Name>, ghost level: map<Name, nat>)
    requires (forall n :: n in g <==> n in names) && Distinct(names)
    requires Closed(g) && Ranked(g, rank)
    ensures ClosureOf(g, if filter == [] then g.Keys else (set n | n in filter), closure)
    ensures Levelled(g, level) && forall n | n in closure :: n in level
    ensures forall n :: n in closure <==> exists l :: 0 <= l < |levels| && n in levels[l]
    ensures forall l | 0 <= l < |levels| :: levels[l] != [] && Distinct(levels[l])
    ensures forall l, n | 0 <= l < |levels| && n in levels[l] :: n in level && level[n] == l
    ensures forall l | 0 <= l < |levels| :: levels[l] == AtLevel(Among(names, closure), level, l)
  {
    var selected;
    selected, closure := SelectedNames(g, names, filter);
    SelectedClosed(g, if filter == [] then g.Keys else (set n | n in filter), closure, selected);
    levels, level := GroupByLevel(g, selected, rank);
    hide ClosureOf, Levelled, Closed, Ranked, Distinct;
    forall n
      ensures n in closure <==> exists l :: 0 <= l < |levels| && n in levels[l]
    {
      if n in closure { assert n in levels[level[n]]; }
    }
  }

  lemma SelectedClosed(g: Procs, roots: set<Name>, closure: set<Name>, selected: seq<Name>)
    requires Closed(g) && ClosureOf(g, roots, closure) && forall n :: n in selected <==> n in closure
    ensures forall n | n in selected :: n in g && forall d | d in g[n].deps :: d in selected
  {
    forall n | n in selected
      ensures n in g && forall d | d in g[n].deps :: d in selected
    {
      assert Eligible(g, n);
      forall d | d in g[n].deps
        ensures d in selected
      {
        assert Supplied(g, n, d) && Eligible(g, d) && d in Deps(g, n);
      }
    }
  }

  method GroupByLevel(g: Procs, selected: seq<Name>, ghost rank: map<Name, nat>)
    returns (levels: seq<seq<Name>>, ghost level: map<Name, nat>)
    requires Closed(g) && Ranked(g, rank) && Distinct(selected)
    requires forall n | n in selected :: n in g && forall d | d in g[n].deps :: d in selected
    ensures Levelled(g, level) && Partition(levels, level, selected) && Ordered(levels, level, selected)
    ensures forall l | 0 <= l < |levels| :: levels[l] != []
  {
    hide Closed, Ranked, Levelled, Partition, Kept, NewBelow, Distinct, Ordered;
    var planner := new Planner(g);
    NothingPlanned(g);
    levels := [];
    for i := 0 to |selected|
      invariant Levelled(g, planner.level) && Partition(levels, planner.level, selected[..i])
      invariant Ordered(levels, planner.level, selected[..i])
      invariant levels != [] ==> levels[|levels| - 1] != []
    {
      ghost var before := planner.level;
      var name := selected[i];
      NextName(selected, i);
      var l := planner.Depth(name, rank);
      RegroupKeeps(levels, before, planner.level, selected[..i]);
      levels := Place(levels, l, name, planner.level, selected[..i]);
    }
    assert selected[..|selected|] == selected;
    level := planner.level;
    if levels != [] { NoLevelEmpty(g, level, levels, selected, |levels| - 1); }
  }

  lemma NextName(ns: seq<Name>, i: nat)
    requires i < |ns| && Distinct(ns)
    ensures ns[i] in ns && ns[i] !in ns[..i] && ns[..i + 1] == ns[..i] + [ns[i]]
  {
  }

  lemma NothingPlanned(g: Procs)
    ensures Levelled(g, map[]) && Partition([], map[], []) && Ordered([], map[], [])
  {
  }

  lemma RegroupKeeps(levels: seq<seq<Name>>, level: map<Name, nat>, level': map<Name, nat>, names: seq<Name>)
    requires Partition(levels, level, names) && Kept(level, level')
    ensures Partition(levels, level', names)
    ensures Ordered(levels, level, names) ==> Ordered(levels, level', names)
  {
    forall l | 0 <= l < |levels|
      ensures AtLevel(names, level', l) == AtLevel(names, level, l)
    {
      AtLevelKept(names, level, level', l);
    }
  }

  lemma PlaceKeeps(before: seq<seq<Name>>, levels: seq<seq<Name>>, level: map<Name, nat>, names: seq<Name>, name: Name)
    requires Partition(before, level, names) && name in level && name !in names
    requires |before| <= |levels| && levels[..|before|] == before && level[name] < |levels|
    requires forall k | |before| <= k < |levels| :: levels[k] == []
    ensures Partition(levels[level[name] := levels[level[name]] + [name]], level, names + [name])
  {
    forall l | 0 <= l < |levels|
      ensures forall n :: n in levels[l] <==> n in names && n in level && level[n] == l
      ensures Distinct(levels[l])
    {
      if l < |before| { assert levels[l] == levels[..|before|][l]; }
    }
  }
}
