/**
 Leases and ports of a session (internal/session/session.go).

 The machine is shared: between any two calls other programs and other sessions may
 take and free what is not a plan's own. A lease is a lock on a file named by a hash
 of what it names, so two names may share a file; a lock has one owner.
 */
module Session {
  datatype Name = Instance(hash: string) | Resource(identity: string) | Tcp(port: int)

  datatype Error =
    | SetupFailed | ExpandFailed | ResolveFailed
    | Leased(name: Name)        // another owner holds the lease
    | InUse(name: Name)         // leased, but another program has the port
    | OwnUse(port: int)         // this session holds the port for another use
    | NoPort(preferred: int)

  // A call the machine turned down.
  datatype Refusal = LockRefused(file: string) | BindRefused(port: int) | SetupRefused

  datatype Outcome<+T> = Success(value: T) | Failure(error: Error)

  function Mine<K>(m: map<K, nat>, id: nat): set<K>
  {
    set k | k in m && m[k] == id
  }

  // The entries of every plan but id's are as they were.
  predicate Kept<K>(plans: set<nat>, id: nat, m: map<K, nat>, m': map<K, nat>)
  {
    forall p | p in plans && p != id :: Mine(m', p) == Mine(m, p)
  }

  const LAST_PORT := 65535

  class Host {
    const path: Name -> string
    var locks: map<string, nat>
    var bound: map<int, nat>
    // The plans whose entries only their own calls change.
    var plans: set<nat>
    // Every refusal so far.
    ghost var refusals: seq<Refusal>

    constructor (path: Name -> string)
      ensures this.path == path && locks == map[] && bound == map[] && plans == {} && refusals == []
    {
      this.path, locks, bound, plans, refusals := path, map[], map[], {}, [];
    }

    // Other programs and sessions come and go.
    method Others()
      modifies this`locks, this`bound
      ensures forall p | p in plans :: Mine(locks, p) == Mine(old(locks), p) && Mine(bound, p) == Mine(old(bound), p)
    {
      var l: map<string, nat>, b: map<int, nat> := *, *;
      if forall p | p in plans :: Mine(l, p) == Mine(locks, p) && Mine(b, p) == Mine(bound, p) {
        locks, bound := l, b;
      }
    }

    method MakeDir() returns (ok: bool)
      modifies this`refusals
      ensures refusals == if ok then old(refusals) else old(refusals) + [SetupRefused]
    {
      ok := *;
      if !ok { refusals := refusals + [SetupRefused]; }
    }

    // Takes a lock without blocking; the lock file may also fail to open.
    method Lock(name: Name, id: nat) returns (ok: bool)
      requires id in plans
      modifies this`locks, this`bound, this`refusals
      ensures refusals == if ok then old(refusals) else old(refusals) + [LockRefused(path(name))]
      ensures Kept(plans, id, old(locks), locks) && Kept(plans, id, old(bound), bound)
      ensures Mine(bound, id) == Mine(old(bound), id)
      ensures Mine(locks, id) == if ok then Mine(old(locks), id) + {path(name)} else Mine(old(locks), id)
      ensures ok ==> forall p | p in plans :: path(name) !in Mine(old(locks), p)
    {
      Others();
      ok := *;
      ok := ok && path(name) !in locks;
      if ok {
        assert forall p | p in plans :: path(name) !in Mine(locks, p);
        locks := locks[path(name) := id];
      } else {
        refusals := refusals + [LockRefused(path(name))];
      }
    }

    method Unlock(file: string, id: nat)
      requires id in plans && file in Mine(locks, id)
      modifies this`locks, this`bound
      ensures Kept(plans, id, old(locks), locks) && Kept(plans, id, old(bound), bound)
      ensures Mine(bound, id) == Mine(old(bound), id) && Mine(locks, id) == Mine(old(locks), id) - {file}
    {
      Others();
      assert file in Mine(locks, id);
      locks := locks - {file};
    }

    // Binds a port, or any free one when asked for port 0.
    method Listen(port: int, id: nat) returns (ok: bool, actual: int)
      requires id in plans
      modifies this`locks, this`bound, this`refusals
      ensures refusals == if ok then old(refusals) else old(refusals) + [BindRefused(port)]
      ensures Kept(plans, id, old(locks), locks) && Kept(plans, id, old(bound), bound)
      ensures Mine(locks, id) == Mine(old(locks), id)
      ensures Mine(bound, id) == if ok then Mine(old(bound), id) + {actual} else Mine(old(bound), id)
      ensures ok ==> forall p | p in plans :: actual !in Mine(old(bound), p)
      ensures ok ==> if port == 0 then 1 <= actual <= LAST_PORT else actual == port
    {
      Others();
      ok, actual := *, *;
      if port != 0 { actual := port; }
      ok := ok && actual !in bound && (port != 0 || 1 <= actual <= LAST_PORT);
      if ok {
        assert forall p | p in plans :: actual !in Mine(bound, p);
        bound := bound[actual := id];
      } else {
        refusals := refusals + [BindRefused(port)];
      }
    }

    method Unbind(port: int, id: nat)
      requires id in plans && port in Mine(bound, id)
      modifies this`locks, this`bound
      ensures Kept(plans, id, old(locks), locks) && Kept(plans, id, old(bound), bound)
      ensures Mine(locks, id) == Mine(old(locks), id) && Mine(bound, id) == Mine(old(bound), id) - {port}
    {
      Others();
      assert port in Mine(bound, id);
      bound := bound - {port};
    }
  }

  ghost predicate Unused(held: set<int>, start: set<int>, ports: seq<int>)
  {
    forall x :: x in held <==> x in start && x !in ports
  }

  // The port could not be had: binding or leasing it was refused.
  predicate Denied(since: seq<Refusal>, path: Name -> string, port: int)
  {
    BindRefused(port) in since || LockRefused(path(Tcp(port))) in since
  }

  // Every port from lo up to, not including, hi was denied.
  ghost predicate AllDenied(since: seq<Refusal>, path: Name -> string, lo: int, hi: int)
  {
    forall q | lo <= q < hi && q <= 65535 :: Denied(since, path, q)
  }

  lemma DeniedStays(a: seq<Refusal>, b: seq<Refusal>, path: Name -> string, lo: int, hi: int)
    requires AllDenied(a, path, lo, hi) && forall x | x in a :: x in b
    ensures AllDenied(b, path, lo, hi)
  {
    forall q | lo <= q < hi && q <= LAST_PORT
      ensures Denied(b, path, q)
    {
      assert Denied(a, path, q);
    }
  }

  lemma OneMoreDenied(a: seq<Refusal>, x: Refusal, path: Name -> string, lo: int, q: int)
    requires AllDenied(a, path, lo, q) && x in {BindRefused(q), LockRefused(path(Tcp(q)))}
    ensures AllDenied(a + [x], path, lo, q + 1)
  {
    DeniedStays(a, a + [x], path, lo, q);
    assert x in a + [x];
  }

  // What was refused when holding a port ended as it did.
  ghost function HoldRefused(path: Name -> string, port: int, r: Outcome<int>): seq<Refusal>
  {
    if r == Failure(Leased(Tcp(port))) then [LockRefused(path(Tcp(port)))]
    else if r == Failure(InUse(Tcp(port))) then [BindRefused(port)]
    else []
  }

  class Plan {
    const host: Host
    const id: nat
    // The lock files held, in the order they were taken.
    var leases: seq<string>
    var held: set<int>
    var uses: map<string, seq<int>>
    // What the session tells its processes: the merge port, 0 for none, and the
    // named ports. They stay assigned when their listeners are released.
    var mergePort: int
    var ports: seq<int>

    ghost predicate Valid()
      reads this, host
    {
      && id in host.plans
      && (forall i, j | 0 <= i < j < |leases| :: leases[i] != leases[j])
      && (forall f :: f in Mine(host.locks, id) <==> f in leases)
      && Mine(host.bound, id) == held
      && (forall p | p in held :: host.path(Tcp(p)) in leases)
    }

    ghost predicate Assigns(port: int)
      reads this
    {
      port in ports || (port == mergePort && port > 0)
    }

    // Every assigned port is still leased, bound or not.
    ghost predicate Owns()
      reads this, host
    {
      forall x | Assigns(x) :: host.path(Tcp(x)) in leases
    }

    // Whatever a call of this plan does, no other plan notices.
    ghost predicate Unnoticed(locks: map<string, nat>, bound: map<int, nat>)
      reads this, host
    {
      Kept(host.plans, id, locks, host.locks) && Kept(host.plans, id, bound, host.bound)
    }

    constructor (host: Host, id: nat)
      requires id in host.plans && Mine(host.locks, id) == {} && Mine(host.bound, id) == {}
      ensures Valid() && this.host == host && this.id == id && leases == [] && held == {} && mergePort == 0
      ensures uses == map[] && ports == []
    {
      this.host, this.id, leases, held, uses, mergePort, ports := host, id, [], {}, map[], 0, [];
    }

    method Lease(name: Name) returns (ok: bool)
      requires Valid()
      modifies this`leases, host`locks, host`bound, host`refusals
      ensures Valid() && Unnoticed(old(host.locks), old(host.bound))
      ensures leases == if ok then old(leases) + [host.path(name)] else old(leases)
      ensures host.refusals == if ok then old(host.refusals) else old(host.refusals) + [LockRefused(host.path(name))]
    {
      ok := host.Lock(name, id);
      if ok { leases := leases + [host.path(name)]; }
    }

    // Binds and leases the first port that can be had from the preferred one on.
    method Allocate(preferred: nat) returns (r: Outcome<int>)
      requires Valid()
      modifies this`leases, this`held, host`locks, host`bound, host`refusals
      ensures Valid() && Unnoticed(old(host.locks), old(host.bound))
      ensures old(leases) <= leases
      ensures r.Success? ==> r.value !in old(held) && held == old(held) + {r.value}
      ensures r.Success? ==> if preferred == 0 then 1 <= r.value <= LAST_PORT
                             else preferred <= r.value < preferred + 128 && r.value <= LAST_PORT
      ensures r.Failure? ==> held == old(held) && leases == old(leases) && r.error == NoPort(preferred)
      // It is the first that can be had: each one before it was denied meanwhile.
      ensures old(host.refusals) <= host.refusals
      ensures preferred != 0 ==>
        AllDenied(host.refusals[|old(host.refusals)|..], host.path, preferred,
                  if r.Success? then r.value else preferred + 128)
      ensures preferred == 0 && r.Failure? ==> |host.refusals| == |old(host.refusals)| + 128
    {
      ghost var start := host.refusals;
      for attempt := 0 to 128
        invariant Valid() && Unnoticed(old(host.locks), old(host.bound)) && held == old(held) && leases == old(leases)
        invariant start <= host.refusals && (preferred == 0 ==> |host.refusals| == |start| + attempt)
        invariant preferred != 0 ==> AllDenied(host.refusals[|start|..], host.path, preferred, preferred + attempt)
      {
        ghost var before, x := host.refusals[|start|..], [];
        var candidate := preferred;
        if candidate != 0 {
          candidate := candidate + attempt;
          if candidate > LAST_PORT { break; }
        }
        r, x := Try(candidate);
        assert host.refusals[|start|..] == before + x;
        if r.Success? {
          assert before + [] == before && (preferred != 0 ==> r.value == candidate == preferred + attempt);
          return;
        }
        assert x == [x[0]];
        if preferred != 0 { OneMoreDenied(before, x[0], host.path, preferred, candidate); }
      }
      r := Failure(NoPort(preferred));
    }

    method Try(candidate: int) returns (r: Outcome<int>, ghost x: seq<Refusal>)
      requires Valid()
      modifies this`leases, this`held, host`locks, host`bound, host`refusals
      ensures Valid() && Unnoticed(old(host.locks), old(host.bound)) && old(leases) <= leases
      ensures r.Success? ==> r.value !in old(held) && held == old(held) + {r.value}
      ensures r.Success? ==> if candidate == 0 then 1 <= r.value <= LAST_PORT else r.value == candidate
      ensures r.Failure? ==> held == old(held) && leases == old(leases)
      ensures host.refusals == old(host.refusals) + x && (r.Success? ==> x == []) && (r.Failure? ==> |x| == 1)
      ensures r.Failure? && candidate != 0 ==> x[0] in {BindRefused(candidate), LockRefused(host.path(Tcp(candidate)))}
    {
      x := [];
      var listening, port := host.Listen(candidate, id);
      if !listening { return Failure(NoPort(candidate)), [BindRefused(candidate)]; }
      var ok := host.Lock(Tcp(port), id);
      if !ok {
        host.Unbind(port, id);
        return Failure(NoPort(candidate)), [LockRefused(host.path(Tcp(port)))];
      }
      leases, held := leases + [host.path(Tcp(port))], held + {port};
      r := Success(port);
    }

    // Takes one given port or none. With the lease tried before the bind, the three
    // refusals tell the caller whose the port is.
    method Hold(port: int) returns (r: Outcome<int>)
      requires Valid() && port != 0
      modifies this`leases, this`held, host`locks, host`bound, host`refusals
      ensures Valid() && Unnoticed(old(host.locks), old(host.bound)) && old(leases) <= leases
      ensures r.Success? ==> r.value == port && port !in old(held) && held == old(held) + {port}
      ensures r.Failure? ==> held == old(held)
      ensures r == Failure(OwnUse(port)) <==> port in old(held)
      ensures r == Failure(Leased(Tcp(port))) ==> leases == old(leases)
      ensures r == Failure(InUse(Tcp(port))) ==> leases == old(leases) + [host.path(Tcp(port))]
      // Each refusal it reports happened.
      ensures r.Failure? ==> r.error in {OwnUse(port), Leased(Tcp(port)), InUse(Tcp(port))}
      ensures host.refusals == old(host.refusals) + HoldRefused(host.path, port, r)
    {
      if port in held { return Failure(OwnUse(port)); }
      var ok := Lease(Tcp(port));
      if !ok { return Failure(Leased(Tcp(port))); }
      var listening, actual := host.Listen(port, id);
      if !listening { return Failure(InUse(Tcp(port))); }
      held := held + {port};
      r := Success(port);
    }

    // Closes the listeners of the held ports a process uses, and keeps the leases.
    method ReleasePorts(name: string)
      requires Valid()
      modifies this`held, host`locks, host`bound
      ensures Valid() && Unnoticed(old(host.locks), old(host.bound)) && leases == old(leases)
      ensures forall x :: x in held <==> x in old(held) && (name in uses ==> x !in uses[name])
    {
      if name !in uses { return; }
      ghost var start := held;
      var ports := uses[name];
      for i := 0 to |ports|
        invariant Valid() && Unnoticed(old(host.locks), old(host.bound))
        invariant Unused(held, start, ports[..i])
      {
        assert ports[..i + 1] == ports[..i] + [ports[i]];
        hide Valid, Unnoticed;
        if ports[i] in held { Release(ports[i]); }
      }
      assert ports[..|ports|] == ports;
    }

    method Release(port: int)
      requires Valid() && port in held
      modifies this`held, host`locks, host`bound
      ensures Valid() && held == old(held) - {port}
      ensures forall l, b | Kept(host.plans, id, l, old(host.locks)) && Kept(host.plans, id, b, old(host.bound)) ::
        Unnoticed(l, b)
    {
      host.Unbind(port, id);
      held := held - {port};
    }

    function UsesOf(name: string): seq<int>
      reads this
    {
      if name in uses then uses[name] else []
    }

    // Notes the ports each process was found to use. What was noted before stays: a
    // reload that is refused later must not lose a use.
    method Resolve(found: Outcome<map<string, seq<int>>>) returns (ok: bool)
      requires Valid()
      modifies this`uses
      ensures Valid() && ok == found.Success?
      ensures !ok ==> uses == old(uses)
      ensures ok ==> forall n, x :: x in UsesOf(n) <==> x in old(UsesOf(n)) || (n in found.value && x in found.value[n])
    {
      if found.Failure? { return false; }
      var added := found.value;
      uses := map n | n in uses.Keys + added.Keys :: UsesOf(n) + if n in added then added[n] else [];
      ok := true;
    }

    // Gives everything back: listeners in any order, leases from the newest down.
    method Close()
      requires Valid()
      modifies this`held, this`leases, host`locks, host`bound
      ensures Valid() && Unnoticed(old(host.locks), old(host.bound))
      ensures held == {} && leases == [] && Mine(host.locks, id) == {} && Mine(host.bound, id) == {}
    {
      while held != {}
        invariant Valid() && Unnoticed(old(host.locks), old(host.bound))
        decreases |held|
      {
        HasMember(held);
        var port :| port in held;
        Release(port);
      }
      while |leases| > 0
        invariant Valid() && Unnoticed(old(host.locks), old(host.bound)) && held == {}
        decreases |leases|
      {
        var last := leases[|leases| - 1];
        assert last in leases;
        host.Unlock(last, id);
        assert forall f :: f in leases[..|leases| - 1] <==> f in leases && f != last;
        leases := leases[..|leases| - 1];
      }
    }
  }

  lemma NoneIsEmpty(s: set<int>)
    ensures (forall x :: x !in s) ==> s == {}
  {
    if forall x :: x !in s { assert s == {}; }
  }

  lemma HasMember(s: set<int>)
    requires s != {}
    ensures exists x :: x in s
  {
    NoneIsEmpty(s);
  }

  // Two live plans share no lease, hold no port in common, and never assign the same
  // port, even after they released it for their processes to bind.
  lemma PlansAreDisjoint(p: Plan, q: Plan)
    requires p.Valid() && q.Valid() && p.host == q.host && p.id != q.id
    ensures forall f | f in p.leases :: f !in q.leases
    ensures p.held !! q.held
    ensures p.Owns() && q.Owns() ==> forall x | p.Assigns(x) :: !q.Assigns(x)
  {
    forall f | f in p.leases
      ensures f !in q.leases
    {
      assert f in Mine(p.host.locks, p.id) && f !in Mine(p.host.locks, q.id);
    }
    forall x | x in p.held
      ensures x !in q.held
    {
      assert x in Mine(p.host.bound, p.id) && x !in Mine(p.host.bound, q.id);
    }
  }

  // ── acquiring a session ─────────────────────────────────────────────────────

  // One named port of a process; a pinned one is a merge upstream's.
  datatype Endpoint = Endpoint(process: string, port: string, preferred: nat, pinned: bool)

  // What the configuration asks for: resource names as they expand (or fail to), in the
  // order of their names, the merge port (0 when the proxy is not selected), the named
  // ports in name order, and which process is found to use which port.
  datatype Request = Request(hash: string, resources: seq<Outcome<string>>, mergePort: int, endpoints: seq<Endpoint>,
                             uses: Outcome<map<string, seq<int>>>)

  predicate Loaded(r: Request)
  {
    && 0 <= r.mergePort <= LAST_PORT
    && forall e | e in r.endpoints :: e.preferred <= LAST_PORT && (e.pinned ==> e.preferred >= 1)
  }

  function Pinned(es: seq<Endpoint>, pinned: bool): (r: seq<Endpoint>)
    ensures forall e :: e in r <==> e in es && e.pinned == pinned
  {
    if es == [] then [] else (if es[0].pinned == pinned then [es[0]] else []) + Pinned(es[1..], pinned)
  }

  // Pinned endpoints go before all others, which can still be given another number.
  function Order(es: seq<Endpoint>): (r: seq<Endpoint>)
    ensures forall e :: e in r <==> e in es
  {
    Pinned(es, true) + Pinned(es, false)
  }

  // The ports assigned so far are this plan's own, all different, and where each may
  // be; nothing else is held but the merge port.
  ghost predicate Assigned(held: set<int>, mergePort: int, es: seq<Endpoint>, ports: seq<int>)
  {
    && |ports| <= |es|
    && (forall i, j | 0 <= i < j < |ports| :: ports[i] != ports[j])
    && (forall i | 0 <= i < |ports| :: ports[i] != mergePort && Suits(es[i], ports[i]))
    && (forall x :: x in held <==> x in ports || (x == mergePort && mergePort > 0))
  }

  predicate Suits(e: Endpoint, port: int)
  {
    if e.pinned then port == e.preferred
    else if e.preferred == 0 then 1 <= port <= LAST_PORT
    else e.preferred <= port < e.preferred + 128 && port <= LAST_PORT
  }

  method Arrange(es: seq<Endpoint>) returns (order: seq<Endpoint>)
    ensures order == Order(es)
  {
    hide Pinned;
    var pinned, movable := [], [];
    assert es[0..] == es;
    for i := 0 to |es|
      invariant pinned + Pinned(es[i..], true) == Pinned(es, true)
      invariant movable + Pinned(es[i..], false) == Pinned(es, false)
    {
      PinnedSplits(es, i, true);
      PinnedSplits(es, i, false);
      Regroup(pinned, es[i], Pinned(es[i + 1..], true));
      Regroup(movable, es[i], Pinned(es[i + 1..], false));
      if es[i].pinned {
        pinned := pinned + [es[i]];
      } else {
        movable := movable + [es[i]];
      }
    }
    PinnedNone();
    assert es[|es|..] == [] && pinned + [] == pinned && movable + [] == movable;
    order := pinned + movable;
  }

  lemma Regroup(a: seq<Endpoint>, e: Endpoint, rest: seq<Endpoint>)
    ensures a + ([e] + rest) == (a + [e]) + rest && a + ([] + rest) == a + rest
  {
    assert [] + rest == rest;
  }

  lemma PinnedNone()
    ensures Pinned([], true) == [] && Pinned([], false) == []
  {
  }

  lemma PinnedSplits(es: seq<Endpoint>, i: nat, pinned: bool)
    requires i < |es|
    ensures Pinned(es[i..], pinned) == (if es[i].pinned == pinned then [es[i]] else []) + Pinned(es[i + 1..], pinned)
  {
    assert es[i..][1..] == es[i + 1..];
  }

  // The resources among the first k, each once, by first mention.
  function Distinct(rs: seq<Outcome<string>>, k: nat): (ids: seq<string>)
    requires k <= |rs|
    ensures forall i, j | 0 <= i < j < |ids| :: ids[i] != ids[j]
    ensures forall x :: x in ids <==> exists i :: 0 <= i < k && rs[i] == Success(x)
  {
    if k == 0 then []
    else
      var before := Distinct(rs, k - 1);
      if rs[k - 1].Success? && rs[k - 1].value !in before then before + [rs[k - 1].value] else before
  }

  function LeaseFiles(path: Name -> string, ids: seq<string>): (files: seq<string>)
    ensures |files| == |ids| && forall i | 0 <= i < |ids| :: files[i] == path(Resource(ids[i]))
  {
    seq(|ids|, i requires 0 <= i < |ids| => path(Resource(ids[i])))
  }

  // What stopped the leasing at resource i: it does not expand, or it is a new one
  // whose lease cannot be had.
  predicate FailsAt(rs: seq<Outcome<string>>, i: nat, error: Error)
    requires i < |rs|
  {
    if rs[i].Failure? then error == ExpandFailed
    else rs[i].value !in Distinct(rs, i) && error == Leased(Resource(rs[i].value))
  }

  // What was refused when leasing ended as it did.
  ghost function LeaseRefused(path: Name -> string, error: Outcome<()>): seq<Refusal>
  {
    if error.Failure? && error.error.Leased? then [LockRefused(path(error.error.name))] else []
  }

  // Leases every resource once, however many names it has, up to the first failure.
  method LeaseResources(p: Plan, resources: seq<Outcome<string>>) returns (error: Outcome<()>, ghost done: nat)
    requires p.Valid()
    modifies p`leases, p.host`locks, p.host`bound, p.host`refusals
    ensures p.Valid() && p.Unnoticed(old(p.host.locks), old(p.host.bound)) && done <= |resources|
    ensures p.leases == old(p.leases) + LeaseFiles(p.host.path, Distinct(resources, done))
    ensures forall j | 0 <= j < done :: resources[j].Success?
    ensures if error.Success? then done == |resources| else done < |resources| && FailsAt(resources, done, error.error)
    ensures p.host.refusals == old(p.host.refusals) + LeaseRefused(p.host.path, error)
  {
    assert p.Unnoticed(p.host.locks, p.host.bound) && p.leases == p.leases + LeaseFiles(p.host.path, Distinct(resources, 0));
    hide Plan.Valid, Plan.Unnoticed, Distinct, LeaseFiles, FailsAt, Kept;
    ghost var start, locks, bound := p.leases, p.host.locks, p.host.bound;
    var leased: set<string> := {};
    error, done := Success(()), 0;
    for i := 0 to |resources|
      invariant p.Valid() && p.Unnoticed(locks, bound) && done == i && error.Success?
      invariant p.host.refusals == old(p.host.refusals)
      invariant p.leases == start + LeaseFiles(p.host.path, Distinct(resources, i))
      invariant forall j | 0 <= j < i :: resources[j].Success?
      invariant forall x :: x in leased <==> x in Distinct(resources, i)
    {
      error, leased := LeaseNext(p, resources, i, leased, start, locks, bound);
      if error.Failure? { return; }
      done := i + 1;
    }
  }

  lemma NextDistinct(rs: seq<Outcome<string>>, i: nat)
    requires i < |rs| && rs[i].Success?
    ensures Distinct(rs, i + 1) ==
      if rs[i].value in Distinct(rs, i) then Distinct(rs, i) else Distinct(rs, i) + [rs[i].value]
  {
  }

  lemma OneMoreFile(start: seq<string>, path: Name -> string, ids: seq<string>, id: string)
    ensures start + LeaseFiles(path, ids + [id]) == (start + LeaseFiles(path, ids)) + [path(Resource(id))]
  {
  }

  // One resource: leased unless it already was under another name.
  method LeaseNext(p: Plan, rs: seq<Outcome<string>>, i: nat, leased: set<string>, ghost start: seq<string>,
                   ghost locks: map<string, nat>, ghost bound: map<int, nat>)
    returns (error: Outcome<()>, leased': set<string>)
    requires p.Valid() && p.Unnoticed(locks, bound) && i < |rs|
    requires p.leases == start + LeaseFiles(p.host.path, Distinct(rs, i))
    requires forall x :: x in leased <==> x in Distinct(rs, i)
    modifies p`leases, p.host`locks, p.host`bound, p.host`refusals
    ensures p.Valid() && p.Unnoticed(locks, bound)
    ensures error.Failure? ==> FailsAt(rs, i, error.error) && p.leases == old(p.leases)
    ensures p.host.refusals == old(p.host.refusals) + LeaseRefused(p.host.path, error)
    ensures error.Success? ==> rs[i].Success? && p.leases == start + LeaseFiles(p.host.path, Distinct(rs, i + 1))
    ensures error.Success? ==> forall x :: x in leased' <==> x in Distinct(rs, i + 1)
  {
    leased', error := leased, Success(());
    if rs[i].Failure? { return Failure(ExpandFailed), leased; }
    var identity := rs[i].value;
    NextDistinct(rs, i);
    if identity in leased { return; }
    OneMoreFile(start, p.host.path, Distinct(rs, i), identity);
    hide Distinct, LeaseFiles;
    leased' := leased + {identity};
    var ok := p.Lease(Resource(identity));
    if !ok { error := Failure(Leased(Resource(identity))); }
  }

  // Assigns the named ports: a pinned one exactly where it is, any other from where it
  // would like to be.
  method AssignPorts(p: Plan, order: seq<Endpoint>) returns (error: Outcome<()>, ports: seq<int>)
    requires p.Valid() && p.mergePort >= 0 && Assigned(p.held, p.mergePort, order, [])
    requires forall e | e in order :: e.preferred <= LAST_PORT && (e.pinned ==> e.preferred >= 1)
    modifies p`leases, p`held, p.host`locks, p.host`bound, p.host`refusals
    ensures p.Valid() && p.Unnoticed(old(p.host.locks), old(p.host.bound)) && old(p.leases) <= p.leases
    ensures error.Success? ==> |ports| == |order| && Assigned(p.held, p.mergePort, order, ports)
    // A port is passed over, and assignment fails, only for refusals of the machine.
    ensures old(p.host.refusals) <= p.host.refusals && |ports| <= |order|
    ensures NearestFree(order, ports, p.host.refusals[|old(p.host.refusals)|..], p.host.path)
    ensures error.Failure? ==> |ports| < |order|
    ensures error.Failure? ==>
      Unassigned(order[|ports|], error.error, p.host.refusals[|old(p.host.refusals)|..], p.host.path)
  {
    ports := [];
    ghost var start := p.host.refusals;
    error := Success(());
    for i := 0 to |order|
      invariant start <= p.host.refusals && error.Success?
      invariant NearestFree(order, ports, p.host.refusals[|start|..], p.host.path)
      invariant p.Valid() && p.Unnoticed(old(p.host.locks), old(p.host.bound)) && old(p.leases) <= p.leases
      invariant |ports| == i && Assigned(p.held, p.mergePort, order, ports)
    {
      var e := order[i];
      assert e in order;
      var got;
      ghost var before := p.held;
      ghost var mid := p.host.refusals;
      if e.pinned {
        got := p.Hold(e.preferred);
      } else {
        got := p.Allocate(e.preferred);
      }
      ghost var more := p.host.refusals[|mid|..];
      assert p.host.refusals[|start|..] == mid[|start|..] + more;
      if got.Failure? {
        NearestStays(order, ports, mid[|start|..], more, p.host.path);
        UnassignedStays(e, got.error, mid[|start|..], more, p.host.path);
        return Failure(got.error), ports;
      }
      AssignedMore(before, p.mergePort, order, ports, got.value);
      NearestMore(order, ports, mid[|start|..], more, p.host.path, got.value);
      ports := ports + [got.value];
    }
  }

  // A movable port is the first from its preferred one on that was not denied.
  ghost predicate NearestFree(order: seq<Endpoint>, ports: seq<int>, since: seq<Refusal>, path: Name -> string)
  {
    |ports| <= |order| && forall i | 0 <= i < |ports| && !order[i].pinned && order[i].preferred != 0 ::
      AllDenied(since, path, order[i].preferred, ports[i])
  }

  // Why an endpoint got no port.
  ghost predicate Unassigned(e: Endpoint, error: Error, since: seq<Refusal>, path: Name -> string)
  {
    if e.pinned then
      error == OwnUse(e.preferred)
      || (error == Leased(Tcp(e.preferred)) && LockRefused(path(Tcp(e.preferred))) in since)
      || (error == InUse(Tcp(e.preferred)) && BindRefused(e.preferred) in since)
    else
      error == NoPort(e.preferred)
      && if e.preferred == 0 then |since| >= 128 else AllDenied(since, path, e.preferred, e.preferred + 128)
  }

  lemma NearestStays(order: seq<Endpoint>, ports: seq<int>, a: seq<Refusal>, b: seq<Refusal>, path: Name -> string)
    requires NearestFree(order, ports, a, path)
    ensures NearestFree(order, ports, a + b, path)
  {
    forall i | 0 <= i < |ports| && !order[i].pinned && order[i].preferred != 0
      ensures AllDenied(a + b, path, order[i].preferred, ports[i])
    {
      DeniedStays(a, a + b, path, order[i].preferred, ports[i]);
    }
  }

  lemma NearestMore(order: seq<Endpoint>, ports: seq<int>, a: seq<Refusal>, b: seq<Refusal>, path: Name -> string, port: int)
    requires NearestFree(order, ports, a, path) && |ports| < |order|
    requires var e := order[|ports|]; !e.pinned && e.preferred != 0 ==> AllDenied(b, path, e.preferred, port)
    ensures NearestFree(order, ports + [port], a + b, path)
  {
    NearestStays(order, ports, a, b, path);
    var e := order[|ports|];
    if !e.pinned && e.preferred != 0 { DeniedStays(b, a + b, path, e.preferred, port); }
  }

  lemma UnassignedStays(e: Endpoint, error: Error, a: seq<Refusal>, b: seq<Refusal>, path: Name -> string)
    requires Unassigned(e, error, b, path)
    ensures Unassigned(e, error, a + b, path)
  {
    if !e.pinned && e.preferred != 0 { DeniedStays(b, a + b, path, e.preferred, e.preferred + 128); }
  }

  lemma AssignedMore(held: set<int>, mergePort: int, es: seq<Endpoint>, ports: seq<int>, port: int)
    requires Assigned(held, mergePort, es, ports) && |ports| < |es| && port !in held && Suits(es[|ports|], port)
    requires mergePort >= 0 && port > 0
    ensures Assigned(held + {port}, mergePort, es, ports + [port])
  {
  }

  // Why a session could not be had.
  ghost predicate Justified(r: Request, error: Error, since: seq<Refusal>, path: Name -> string)
  {
    match error
    case SetupFailed => SetupRefused in since
    case ExpandFailed => exists x :: x in r.resources && x.Failure?
    case ResolveFailed => r.uses.Failure?
    case Leased(name) => LockRefused(path(name)) in since
    case InUse(name) => name.Tcp? && BindRefused(name.port) in since
    case OwnUse(port) => exists e :: e in r.endpoints && e.pinned && e.preferred == port
    case NoPort(port) =>
      && (exists e :: e in r.endpoints && !e.pinned && e.preferred == port)
      && if port == 0 then |since| >= 128 else AllDenied(since, path, port, port + 128)
  }

  lemma UnassignedIsJustified(r: Request, e: Endpoint, error: Error, since: seq<Refusal>, path: Name -> string)
    requires e in r.endpoints && Unassigned(e, error, since, path)
    ensures Justified(r, error, since, path)
  {
  }

  // Everything a request asks for is leased, and every resource of it expanded.
  ghost predicate Leases(p: Plan, r: Request)
    reads p, p.host
  {
    && p.host.path(Instance(r.hash)) in p.leases
    && forall x | x in r.resources :: x.Success? && p.host.path(Resource(x.value)) in p.leases
  }

  // Acquires a session: everything it needs, or nothing at all.
  method Acquire(host: Host, id: nat, r: Request) returns (error: Outcome<()>, plan: Plan?)
    requires id in host.plans && Mine(host.locks, id) == {} && Mine(host.bound, id) == {} && Loaded(r)
    modifies host`locks, host`bound, host`refusals
    ensures Kept(host.plans, id, old(host.locks), host.locks) && Kept(host.plans, id, old(host.bound), host.bound)
    ensures error.Failure? ==> plan == null && Mine(host.locks, id) == {} && Mine(host.bound, id) == {}
    // It fails only for what the request lacks or the machine refused, and prefers as
    // the request does.
    ensures old(host.refusals) <= host.refusals
    ensures error.Failure? ==> Justified(r, error.error, host.refusals[|old(host.refusals)|..], host.path)
    ensures error.Success? ==>
      plan != null && NearestFree(Order(r.endpoints), plan.ports, host.refusals[|old(host.refusals)|..], host.path)
    ensures error.Success? ==>
      && plan != null && fresh(plan) && plan.Valid() && plan.Owns() && plan.host == host && plan.id == id
      && Leases(plan, r) && |plan.ports| == |Order(r.endpoints)| && plan.mergePort == r.mergePort
      && Assigned(plan.held, plan.mergePort, Order(r.endpoints), plan.ports)
  {
    var p := new Plan(host, id);
    plan := null;
    var order := Arrange(r.endpoints);
    error := Take(p, r, order);
    if error.Failure? {
      p.Close();
      return error, null;
    }
    plan := p;
  }

  method Take(p: Plan, r: Request, order: seq<Endpoint>) returns (error: Outcome<()>)
    requires p.Valid() && p.held == {} && p.leases == [] && p.mergePort == 0 && Loaded(r) && order == Order(r.endpoints)
    modifies p`leases, p`held, p`mergePort, p`ports, p`uses, p.host`locks, p.host`bound, p.host`refusals
    ensures p.Valid() && p.Unnoticed(old(p.host.locks), old(p.host.bound))
    ensures error.Success? ==>
      && p.Owns() && Leases(p, r) && |p.ports| == |order| && p.mergePort == r.mergePort
      && Assigned(p.held, p.mergePort, order, p.ports)
    ensures old(p.host.refusals) <= p.host.refusals
    ensures error.Failure? ==> Justified(r, error.error, p.host.refusals[|old(p.host.refusals)|..], p.host.path)
    ensures error.Success? ==> NearestFree(order, p.ports, p.host.refusals[|old(p.host.refusals)|..], p.host.path)
  {
    hide Justified, NearestFree, Assigned, Order;
    ghost var start := p.host.refusals;
    error := TakeLeases(p, r);
    if error.Failure? { return; }
    error := TakePorts(p, r, order);
    if error.Failure? { return; }
    var resolved := p.Resolve(r.uses);
    if !resolved {
      error := Failure(ResolveFailed);
      UnresolvedIsJustified(r, p.host.refusals[|start|..], p.host.path);
    }
  }

  lemma UnresolvedIsJustified(r: Request, since: seq<Refusal>, path: Name -> string)
    requires r.uses.Failure?
    ensures Justified(r, ResolveFailed, since, path)
  {
  }

  method TakeLeases(p: Plan, r: Request) returns (error: Outcome<()>)
    requires p.Valid() && p.leases == []
    modifies p`leases, p.host`locks, p.host`bound, p.host`refusals
    ensures p.Valid() && p.Unnoticed(old(p.host.locks), old(p.host.bound))
    ensures error.Success? ==> Leases(p, r) && p.host.refusals == old(p.host.refusals)
    ensures old(p.host.refusals) <= p.host.refusals
    ensures error.Failure? ==> Justified(r, error.error, p.host.refusals[|old(p.host.refusals)|..], p.host.path)
  {
    hide Leases, Distinct, LeaseFiles;
    var made := p.host.MakeDir();
    if !made { return Failure(SetupFailed); }
    var ok := p.Lease(Instance(r.hash));
    if !ok { return Failure(Leased(Instance(r.hash))); }
    ghost var done;
    error, done := LeaseResources(p, r.resources);
    if error.Success? { AllLeased(p, r); }
    assert error.Failure? && error.error.ExpandFailed? ==> r.resources[done] in r.resources;
  }

  lemma AllLeased(p: Plan, r: Request)
    requires forall j | 0 <= j < |r.resources| :: r.resources[j].Success?
    requires p.leases == [p.host.path(Instance(r.hash))] + LeaseFiles(p.host.path, Distinct(r.resources, |r.resources|))
    ensures Leases(p, r)
  {
    var ids := Distinct(r.resources, |r.resources|);
    forall x | x in r.resources
      ensures x.Success? && p.host.path(Resource(x.value)) in p.leases
    {
      var j :| 0 <= j < |r.resources| && r.resources[j] == x;
      assert x.value in ids;
      var i :| 0 <= i < |ids| && ids[i] == x.value;
      assert p.leases[i + 1] == p.host.path(Resource(x.value));
    }
    assert p.leases[0] == p.host.path(Instance(r.hash));
  }

  lemma LeasesGrow(p: Plan, r: Request, before: seq<string>)
    requires p.host.path(Instance(r.hash)) in before && before <= p.leases
    requires forall x | x in r.resources :: x.Success? && p.host.path(Resource(x.value)) in before
    ensures Leases(p, r)
  {
  }

  method TakePorts(p: Plan, r: Request, order: seq<Endpoint>) returns (error: Outcome<()>)
    requires p.Valid() && p.held == {} && p.mergePort == 0 && Loaded(r) && order == Order(r.endpoints) && Leases(p, r)
    modifies p`leases, p`held, p`mergePort, p`ports, p.host`locks, p.host`bound, p.host`refusals
    ensures p.Valid() && p.Unnoticed(old(p.host.locks), old(p.host.bound)) && Leases(p, r)
    ensures error.Success? ==>
      && p.Owns() && |p.ports| == |order| && p.mergePort == r.mergePort
      && Assigned(p.held, p.mergePort, order, p.ports)
    ensures old(p.host.refusals) <= p.host.refusals
    ensures error.Failure? ==> Justified(r, error.error, p.host.refusals[|old(p.host.refusals)|..], p.host.path)
    ensures error.Success? ==> NearestFree(order, p.ports, p.host.refusals[|old(p.host.refusals)|..], p.host.path)
  {
    hide Justified, NearestFree, Leases, Unassigned;
    ghost var start := p.host.refusals;
    error := TakeMerge(p, r);
    if error.Failure? { return; }
    error := TakeNamed(p, r, order);
  }

  method TakeMerge(p: Plan, r: Request) returns (error: Outcome<()>)
    requires p.Valid() && p.held == {} && p.mergePort == 0 && Loaded(r) && Leases(p, r)
    modifies p`leases, p`held, p`mergePort, p.host`locks, p.host`bound, p.host`refusals
    ensures p.Valid() && p.Unnoticed(old(p.host.locks), old(p.host.bound)) && Leases(p, r)
    ensures error.Success? ==>
      p.mergePort == r.mergePort && p.held == (if r.mergePort > 0 then {r.mergePort} else {})
      && p.host.refusals == old(p.host.refusals)
    ensures old(p.host.refusals) <= p.host.refusals
    ensures error.Failure? ==> Justified(r, error.error, p.host.refusals[|old(p.host.refusals)|..], p.host.path)
  {
    ghost var before := p.leases;
    error := Success(());
    if r.mergePort > 0 {
      var got := p.Hold(r.mergePort);
      LeasesGrow(p, r, before);
      if got.Failure? { return Failure(got.error); }
      p.mergePort := r.mergePort;
    }
  }

  method TakeNamed(p: Plan, r: Request, order: seq<Endpoint>) returns (error: Outcome<()>)
    requires p.Valid() && p.mergePort >= 0 && p.held == (if p.mergePort > 0 then {p.mergePort} else {})
    requires Loaded(r) && order == Order(r.endpoints) && Leases(p, r)
    modifies p`leases, p`held, p`ports, p.host`locks, p.host`bound, p.host`refusals
    ensures p.Valid() && p.Unnoticed(old(p.host.locks), old(p.host.bound)) && Leases(p, r)
    ensures error.Success? ==> p.Owns() && |p.ports| == |order| && Assigned(p.held, p.mergePort, order, p.ports)
    ensures old(p.host.refusals) <= p.host.refusals
    ensures error.Failure? ==> Justified(r, error.error, p.host.refusals[|old(p.host.refusals)|..], p.host.path)
    ensures error.Success? ==> NearestFree(order, p.ports, p.host.refusals[|old(p.host.refusals)|..], p.host.path)
  {
    ghost var before, start := p.leases, p.host.refusals;
    hide Justified, NearestFree, Unassigned, Order;
    var ports;
    error, ports := AssignPorts(p, order);
    LeasesGrow(p, r, before);
    p.ports := ports;
    if error.Failure? {
      UnassignedIsJustified(r, order[|ports|], error.error, p.host.refusals[|start|..], p.host.path);
    }
  }

  // ── sessions side by side ───────────────────────────────────────────────────

  // Live plans of one machine, each with an id of its own; the ids of no live plan
  // own nothing.
  ghost predicate Together(host: Host, live: set<Plan>)
    reads host, live
  {
    && (forall p | p in live :: p.host == host && p.Valid() && p.Owns())
    && (forall p, q | p in live && q in live && p.id == q.id :: p == q)
    && (forall id | id in host.plans && (forall p | p in live :: p.id != id) ::
          Mine(host.locks, id) == {} && Mine(host.bound, id) == {})
  }

  ghost predicate Apart(live: set<Plan>)
    reads live
  {
    forall p, q | p in live && q in live && p != q ::
      && (forall f | f in p.leases :: f !in q.leases) && p.held !! q.held
      && (forall x | p.Assigns(x) :: !q.Assigns(x))
  }

  lemma TogetherIsApart(host: Host, live: set<Plan>)
    requires Together(host, live)
    ensures Apart(live)
  {
    forall p, q | p in live && q in live && p != q
      ensures (forall f | f in p.leases :: f !in q.leases) && p.held !! q.held
      ensures forall x | p.Assigns(x) :: !q.Assigns(x)
    {
      PlansAreDisjoint(p, q);
    }
  }

  // Any number of sessions, acquired, releasing ports and closed in any order, over
  // any number of calls, beside other programs that come and go: at every moment no
  // two live ones share a lease, a listener or an assigned port.
  method Sessions(host: Host, calls: nat) returns (live: set<Plan>)
    requires forall id | id in host.plans :: Mine(host.locks, id) == {} && Mine(host.bound, id) == {}
    modifies host`locks, host`bound, host`refusals
    ensures Together(host, live) && Apart(live)
  {
    live := {};
    for i := 0 to calls
      invariant Together(host, live) && forall p | p in live :: fresh(p)
    {
      live := OneCall(host, live);
    }
    TogetherIsApart(host, live);
  }

  method OneCall(host: Host, live: set<Plan>) returns (live': set<Plan>)
    requires Together(host, live)
    modifies host`locks, host`bound, host`refusals, live
    ensures Together(host, live') && forall p | p in live' :: p in live || fresh(p)
  {
    hide Together;
    live' := live;
    if {
      case true =>
        live' := OneMore(host, live);
      case live != {} =>
        var p :| p in live;
        var name: string := *;
        ReleaseOne(host, live, p, name);
      case live != {} =>
        var p :| p in live;
        var found: Outcome<map<string, seq<int>>> := *;
        ResolveOne(host, live, p, found);
      case live != {} =>
        var p :| p in live;
        live' := OneLess(host, live, p);
    }
  }

  method OneMore(host: Host, live: set<Plan>) returns (live': set<Plan>)
    requires Together(host, live)
    modifies host`locks, host`bound, host`refusals
    ensures Together(host, live') && forall p | p in live' :: p in live || fresh(p)
  {
    live' := live;
    var id: nat, r: Request := *, *;
    if id in host.plans && (forall p | p in live :: p.id != id) && Loaded(r) {
      hide Assigned, Leases, Order, Loaded;
      var error, plan := Acquire(host, id, r);
      if error.Success? { live' := live + {plan}; }
    }
  }

  method ReleaseOne(host: Host, live: set<Plan>, p: Plan, name: string)
    requires Together(host, live) && p in live
    modifies p`held, host`locks, host`bound
    ensures Together(host, live)
  {
    p.ReleasePorts(name);
  }

  method ResolveOne(host: Host, live: set<Plan>, p: Plan, found: Outcome<map<string, seq<int>>>)
    requires Together(host, live) && p in live
    modifies p`uses
    ensures Together(host, live)
  {
    var ok := p.Resolve(found);
  }

  method OneLess(host: Host, live: set<Plan>, p: Plan) returns (live': set<Plan>)
    requires Together(host, live) && p in live
    modifies p`held, p`leases, host`locks, host`bound
    ensures Together(host, live') && live' == live - {p}
  {
    p.Close();
    live' := live - {p};
  }
}
