/** What the load balancer plan builds: the tree Octavia ends up with, and the ACTIVE barrier. */
module LoadBalancerTree {
  import opened Store
  import opened World
  import opened Base
  import opened Destination
  import opened LoadBalancer

  // ---- The ACTIVE barrier ----

  predicate IsChild(req: Request) {
    req.CreateListener? || req.CreatePool? || req.CreateMonitor? || req.CreateMember?
  }

  /** The load balancer is ACTIVE after these requests: nothing changed it since the last wait. */
  predicate Active(log: seq<Request>)
    decreases |log|
  {
    log != [] && var last := log[|log| - 1];
      last.WaitActive? || (last.UpdateIp? && Active(log[..|log| - 1]))
  }

  /** Every child creation on top of `log` is issued while the load balancer is ACTIVE. */
  predicate Guarded(log: seq<Request>, reqs: seq<Request>)
    decreases |reqs|
  {
    reqs == [] || ((IsChild(reqs[0]) ==> Active(log)) && Guarded(log + [reqs[0]], reqs[1..]))
  }

  /** From ACTIVE to ACTIVE, creating only while ACTIVE. */
  ghost predicate Safe(log: seq<Request>, reqs: seq<Request>) {
    Active(log) ==> Guarded(log, reqs) && Active(log + reqs)
  }

  lemma {:induction false} GuardedConcat(log: seq<Request>, a: seq<Request>, b: seq<Request>)
    requires Guarded(log, a) && Guarded(log + a, b)
    ensures Guarded(log, a + b)
    decreases |a|
  {
    if a == [] {
      assert a + b == b && log + a == log;
    } else {
      assert (a + b)[1..] == a[1..] + b && log + [a[0]] + a[1..] == log + a;
      GuardedConcat(log + [a[0]], a[1..], b);
    }
  }

  lemma SafeConcat(log: seq<Request>, a: seq<Request>, b: seq<Request>)
    requires Safe(log, a) && Safe(log + a, b)
    ensures Safe(log, a + b)
  {
    if Active(log) {
      GuardedConcat(log, a, b);
      assert log + a + b == log + (a + b);
    }
  }

  lemma SafeNothing(log: seq<Request>)
    ensures Safe(log, [])
  {
    assert log + [] == log;
  }

  /** A creation and its wait. */
  lemma SafeStep(log: seq<Request>, req: Request, lb: string)
    ensures Safe(log, [req, WaitActive(lb)])
  {
    var two := [req, WaitActive(lb)];
    assert two[1..] == [WaitActive(lb)] && two[1..][1..] == [];
    assert (log + two)[|log + two| - 1] == WaitActive(lb);
  }

  lemma SafeUpdate(log: seq<Request>, req: Request)
    requires req.UpdateIp?
    ensures Safe(log, [req])
  {
    assert [req][1..] == [];
    assert (log + [req])[|log|] == req && (log + [req])[..|log|] == log;
  }

  lemma {:induction false} MembersSafe(log: seq<Request>, ms: seq<SourceMember>, given: seq<Migrated>,
          pool: string, lb: string)
    ensures Safe(log, MemberBlock(ms, given, pool, lb))
    decreases |ms|
  {
    hide Safe;
    if ms == [] {
      SafeNothing(log);
    } else {
      var step := [CreateMember(pool, MemberSubnet(ms[0], given), ms[0].attrs), WaitActive(lb)];
      SafeStep(log, step[0], lb);
      MembersSafe(log + step, ms[1..], given, pool, lb);
      SafeConcat(log, step, MemberBlock(ms[1..], given, pool, lb));
    }
  }

  lemma PoolSafe(log: seq<Request>, p: SourcePool, given: seq<Migrated>, listener: string, lb: string,
          name: Naming, n: nat)
    ensures Safe(log, PoolBlock(p, given, listener, lb, name, n))
  {
    hide Safe, MemberBlock;
    var create := [CreatePool(listener, p.attrs), WaitActive(lb)];
    var monitor, members := MonitorBlock(p, name(n), lb), MemberBlock(p.members, given, name(n), lb);
    SafeStep(log, create[0], lb);
    if p.monitor.Some? { SafeStep(log + create, monitor[0], lb); } else { SafeNothing(log + create); }
    MembersSafe(log + create + monitor, p.members, given, name(n), lb);
    SafeConcat(log + create, monitor, members);
    SafeConcat(log, create, monitor + members);
  }

  lemma ListenerSafe(log: seq<Request>, src: SourceLb, given: seq<Migrated>, i: nat, lb: string, name: Naming, n: nat)
    requires i < |src.listeners|
    ensures Safe(log, ListenerBlock(src, given, i, lb, name, n))
  {
    hide Safe, PoolBlock, FirstNamer;
    var create := [CreateListener(lb, src.listeners[i].attrs), WaitActive(lb)];
    SafeStep(log, create[0], lb);
    if Carries(src, i) {
      var p := src.pools[src.listeners[i].pool];
      PoolSafe(log + create, p, given, name(n), lb, name, n + 2);
      SafeConcat(log, create, PoolBlock(p, given, name(n), lb, name, n + 2));
    } else {
      assert create + [] == create;
    }
  }

  lemma {:induction false} BlocksSafe(log: seq<Request>, src: SourceLb, given: seq<Migrated>, i: nat,
          lb: string, name: Naming, n: nat)
    requires i <= |src.listeners|
    ensures Safe(log, Blocks(src, given, i, lb, name, n))
    decreases |src.listeners| - i
  {
    hide Safe, ListenerBlock;
    if i == |src.listeners| {
      SafeNothing(log);
    } else {
      var block := ListenerBlock(src, given, i, lb, name, n);
      ListenerSafe(log, src, given, i, lb, name, n);
      BlocksSafe(log + block, src, given, i + 1, lb, name, n + |block|);
      SafeConcat(log, block, Blocks(src, given, i + 1, lb, name, n + |block|));
    }
  }

  lemma {:induction false} FipsSafe(log: seq<Request>, fips: seq<string>, given: seq<Migrated>, port: string)
    ensures Safe(log, FipBlock(fips, given, port))
    decreases |fips|
  {
    hide Safe, Lookup;
    if fips == [] {
      SafeNothing(log);
    } else {
      var fip := Lookup(given, Key("floating-ip", fips[0]));
      var first := if fip.Err? then [] else [UpdateIp(fip.value, port)];
      if fip.Err? { SafeNothing(log); } else { SafeUpdate(log, first[0]); }
      FipsSafe(log + first, fips[1..], given, port);
      SafeConcat(log, first, FipBlock(fips[1..], given, port));
    }
  }

  /** The first request creates no child and the wait after it makes the load balancer ACTIVE. */
  lemma StartGuarded(log: seq<Request>, request: Request, lb: string)
    requires request.CreateLoadBalancer?
    ensures Guarded(log, [request, WaitActive(lb)]) && Active(log + [request, WaitActive(lb)])
  {
    var start := [request, WaitActive(lb)];
    assert start[1..] == [WaitActive(lb)] && start[1..][1..] == [];
    assert (log + start)[|log + start| - 1] == WaitActive(lb);
  }

  /** Listeners, pools, monitors and members are only created while the load balancer is ACTIVE,
      and it is ACTIVE again when the whole plan has run. */
  lemma ChildrenOnlyWhileActive(log: seq<Request>, request: Request, src: SourceLb, given: seq<Migrated>,
          destPort: string, name: Naming)
    requires request.CreateLoadBalancer?
    ensures var reqs := [request] + Plan(src, given, destPort, name, |log|);
      Guarded(log, reqs) && Active(log + reqs)
  {
    hide Blocks, FipBlock, Active, Guarded;
    var lb := name(|log|);
    var start := [request, WaitActive(lb)];
    var tree, fips := Blocks(src, given, 0, lb, name, |log| + 2),
      if destPort == "" then [] else FipBlock(src.fips, given, destPort);
    StartGuarded(log, request, lb);
    BlocksSafe(log + start, src, given, 0, lb, name, |log| + 2);
    if destPort == "" {
      SafeNothing(log + start + tree);
    } else {
      FipsSafe(log + start + tree, src.fips, given, destPort);
    }
    SafeConcat(log + start, tree, fips);
    GuardedConcat(log, start, tree + fips);
    assert [request] + ([WaitActive(lb)] + (tree + fips)) == start + (tree + fips);
    assert log + (start + (tree + fips)) == log + start + (tree + fips);
  }

  // ---- The tree Octavia builds ----

  datatype DestMember = DestMember(subnet: string, attrs: string)
  datatype DestPool = DestPool(id: string, attrs: string, monitor: Option<string>, members: seq<DestMember>)
  datatype DestListener = DestListener(id: string, attrs: string, pool: Option<DestPool>)

  type Tree = seq<DestListener>

  /** What one request does to one listener; references are resolved by id. */
  function Touch(l: DestListener, req: Request, id: string): DestListener {
    match req
    case CreatePool(listener, attrs) =>
      if l.id == listener then l.(pool := Some(DestPool(id, attrs, None, []))) else l
    case CreateMonitor(pool, attrs) =>
      if l.pool.Some? && l.pool.value.id == pool then l.(pool := Some(l.pool.value.(monitor := Some(attrs)))) else l
    case CreateMember(pool, subnet, attrs) =>
      if l.pool.Some? && l.pool.value.id == pool
      then l.(pool := Some(l.pool.value.(members := l.pool.value.members + [DestMember(subnet, attrs)]))) else l
    case _ => l
  }

  function TouchAll(t: Tree, req: Request, id: string): (r: Tree)
    ensures |r| == |t|
  {
    if t == [] then [] else [Touch(t[0], req, id)] + TouchAll(t[1..], req, id)
  }

  function Apply(t: Tree, req: Request, id: string): Tree {
    if req.CreateListener? then t + [DestListener(id, req.attrs, None)] else TouchAll(t, req, id)
  }

  /** The requests from position `n` on, each under the id of its position. */
  function ApplyAll(t: Tree, reqs: seq<Request>, name: Naming, n: nat): Tree
    decreases |reqs|
  {
    if reqs == [] then t else ApplyAll(Apply(t, reqs[0], name(n)), reqs[1..], name, n + 1)
  }

  lemma {:induction false} ApplyConcat(t: Tree, a: seq<Request>, b: seq<Request>, name: Naming, n: nat)
    ensures ApplyAll(t, a + b, name, n) == ApplyAll(ApplyAll(t, a, name, n), b, name, n + |a|)
    decreases |a|
  {
    if a == [] {
      assert a + b == b;
    } else {
      assert (a + b)[1..] == a[1..] + b;
      ApplyConcat(Apply(t, a[0], name(n)), a[1..], b, name, n + 1);
    }
  }

  /** Distinct positions have distinct ids. */
  ghost predicate Fresh(name: Naming) {
    forall i: nat, j: nat :: i != j ==> name(i) != name(j)
  }

  /** All ids in the tree are names of positions before `n`. */
  ghost predicate Below(t: Tree, name: Naming, n: nat) {
    forall l :: l in t ==> forall m: nat :: n <= m ==> l.id != name(m) && (l.pool.Some? ==> l.pool.value.id != name(m))
  }

  // ---- The image of the source tree ----

  function MemberImages(ms: seq<SourceMember>, tr: Translation): (r: seq<DestMember>)
    ensures |r| == |ms|
    ensures forall i :: 0 <= i < |ms| ==> r[i] == DestMember(RefImage("subnet", ms[i].subnet, tr), ms[i].attrs)
  {
    if ms == [] then [] else [DestMember(RefImage("subnet", ms[0].subnet, tr), ms[0].attrs)] + MemberImages(ms[1..], tr)
  }

  predicate PoolImage(p: SourcePool, d: DestPool, tr: Translation) {
    d.attrs == p.attrs && d.monitor == p.monitor && d.members == MemberImages(p.members, tr)
  }

  /** Listener `d` is the copy of source listener `i`: same attributes, and the copy of its pool with
      monitor and members in order if it is the first to name one that exists. */
  predicate ListenerImage(src: SourceLb, i: nat, d: DestListener, tr: Translation)
    requires i < |src.listeners|
  {
    && d.attrs == src.listeners[i].attrs
    && (d.pool.Some? <==> Carries(src, i))
    && (d.pool.Some? ==> PoolImage(src.pools[src.listeners[i].pool], d.pool.value, tr))
  }

  /** The first `n` listeners are copied. */
  predicate TreeImage(src: SourceLb, n: nat, t: Tree, tr: Translation)
    requires n <= |src.listeners|
  {
    |t| == n && forall i :: 0 <= i < n ==> ListenerImage(src, i, t[i], tr)
  }

  /** All member subnets of copied pools are found. */
  predicate SubnetsFound(src: SourceLb, given: seq<Migrated>, tr: Translation) {
    forall i :: 0 <= i < |src.listeners| && HasPool(src, src.listeners[i]) ==>
      MembersFound(src.pools[src.listeners[i].pool].members, given, tr)
  }

  predicate MembersFound(ms: seq<SourceMember>, given: seq<Migrated>, tr: Translation) {
    forall j :: 0 <= j < |ms| ==> MemberSubnet(ms[j], given) == RefImage("subnet", ms[j].subnet, tr)
  }

  // ---- The plan builds the image ----

  /** A request for a listener or pool that is not in the tree changes nothing. */
  lemma {:induction false} TouchElsewhere(t: Tree, req: Request, id: string)
    requires forall l :: l in t ==> Touch(l, req, id) == l
    ensures TouchAll(t, req, id) == t
    decreases |t|
  {
    if t != [] {
      assert t == [t[0]] + t[1..];
      TouchElsewhere(t[1..], req, id);
    }
  }

  lemma {:induction false} TouchLast(t: Tree, l: DestListener, req: Request, id: string)
    requires forall x :: x in t ==> Touch(x, req, id) == x
    ensures TouchAll(t + [l], req, id) == t + [Touch(l, req, id)]
    decreases |t|
  {
    if t == [] {
      assert t + [l] == [l] && [l][1..] == [];
    } else {
      assert (t + [l])[1..] == t[1..] + [l];
      TouchLast(t[1..], l, req, id);
    }
  }

  lemma TouchWait(t: Tree, lb: string, id: string)
    ensures Apply(t, WaitActive(lb), id) == t
  {
    TouchElsewhere(t, WaitActive(lb), id);
  }

  /** A creation and its wait. */
  lemma ApplyStep(t: Tree, req: Request, lb: string, name: Naming, n: nat)
    ensures ApplyAll(t, [req, WaitActive(lb)], name, n) == Apply(t, req, name(n))
  {
    var two, u := [req, WaitActive(lb)], Apply(t, req, name(n));
    TouchWait(u, lb, name(n + 1));
    assert two[1..] == [WaitActive(lb)] && [WaitActive(lb)][1..] == [];
    assert ApplyAll(t, two, name, n) == ApplyAll(u, [WaitActive(lb)], name, n + 1);
    assert ApplyAll(u, [WaitActive(lb)], name, n + 1) == ApplyAll(u, [], name, n + 2);
  }

  lemma ApplyNone(t: Tree, name: Naming, n: nat)
    ensures ApplyAll(t, [], name, n) == t
  {
  }

  lemma ApplyWait(t: Tree, lb: string, name: Naming, n: nat)
    ensures ApplyAll(t, [WaitActive(lb)], name, n) == t
  {
    TouchWait(t, lb, name(n));
    assert [WaitActive(lb)][1..] == [];
  }

  lemma ApplyStepThen(t: Tree, req: Request, lb: string, rest: seq<Request>, name: Naming, n: nat)
    ensures ApplyAll(t, [req, WaitActive(lb)] + rest, name, n) == ApplyAll(Apply(t, req, name(n)), rest, name, n + 2)
  {
    ApplyStep(t, req, lb, name, n);
    ApplyConcat(t, [req, WaitActive(lb)], rest, name, n);
  }

  /** Requests that name position `p` touch only the last listener, if all others are older. */
  lemma TouchNewest(t: Tree, l: DestListener, req: Request, id: string, name: Naming, p: nat)
    requires Below(t, name, p)
    requires match req
      case CreatePool(r, _) => r == name(p)
      case CreateMonitor(r, _) => r == name(p)
      case CreateMember(r, _, _) => r == name(p)
      case _ => false
    ensures Apply(t + [l], req, id) == t + [Touch(l, req, id)]
  {
    TouchLast(t, l, req, id);
  }

  function WithMembers(l: DestListener, ms: seq<DestMember>): DestListener
    requires l.pool.Some?
  {
    l.(pool := Some(l.pool.value.(members := l.pool.value.members + ms)))
  }

  lemma WithMembersTwice(l: DestListener, a: seq<DestMember>, b: seq<DestMember>)
    requires l.pool.Some?
    ensures WithMembers(l, []) == l
    ensures WithMembers(WithMembers(l, a), b) == WithMembers(l, a + b)
    ensures WithMembers(l, a).pool.Some? && WithMembers(l, a).pool.value.id == l.pool.value.id
  {
    var ms := l.pool.value.members;
    assert ms + [] == ms && ms + (a + b) == (ms + a) + b;
  }

  /** One member and its wait. */
  lemma MemberBuilt(t: Tree, l: DestListener, m: SourceMember, given: seq<Migrated>, tr: Translation,
          lb: string, rest: seq<Request>, name: Naming, p: nat, n: nat)
    requires Below(t, name, p) && l.pool.Some? && l.pool.value.id == name(p)
    requires MemberSubnet(m, given) == RefImage("subnet", m.subnet, tr)
    ensures var req := CreateMember(name(p), MemberSubnet(m, given), m.attrs);
      ApplyAll(t + [l], [req, WaitActive(lb)] + rest, name, n) ==
      ApplyAll(t + [WithMembers(l, MemberImages([m], tr))], rest, name, n + 2)
  {
    hide Below, Apply, ApplyAll, MemberSubnet;
    var req := CreateMember(name(p), MemberSubnet(m, given), m.attrs);
    TouchNewest(t, l, req, name(n), name, p);
    ApplyStepThen(t + [l], req, lb, rest, name, n);
    assert MemberImages([m], tr) == [DestMember(RefImage("subnet", m.subnet, tr), m.attrs)];
  }

  lemma {:induction false} MembersBuilt(t: Tree, l: DestListener, ms: seq<SourceMember>, given: seq<Migrated>,
          tr: Translation, lb: string, name: Naming, p: nat, n: nat)
    requires Below(t, name, p) && l.pool.Some? && l.pool.value.id == name(p)
    requires forall j :: 0 <= j < |ms| ==> MemberSubnet(ms[j], given) == RefImage("subnet", ms[j].subnet, tr)
    ensures ApplyAll(t + [l], MemberBlock(ms, given, name(p), lb), name, n) ==
      t + [WithMembers(l, MemberImages(ms, tr))]
    decreases |ms|
  {
    hide Below, Apply, ApplyAll, MemberSubnet, WithMembers;
    if ms == [] {
      ApplyNone(t + [l], name, n);
      WithMembersTwice(l, [], []);
    } else {
      var one, rest := MemberImages(ms[..1], tr), MemberImages(ms[1..], tr);
      assert ms[..1] == [ms[0]];
      WithMembersTwice(l, one, rest);
      MemberBuilt(t, l, ms[0], given, tr, lb, MemberBlock(ms[1..], given, name(p), lb), name, p, n);
      MembersBuilt(t, WithMembers(l, one), ms[1..], given, tr, lb, name, p, n + 2);
      assert one + rest == MemberImages(ms, tr);
    }
  }

  lemma PoolBuilt(t: Tree, l: DestListener, src: SourcePool, given: seq<Migrated>, tr: Translation, lb: string,
          name: Naming, k: nat, n: nat)
    requires Fresh(name) && k < n && Below(t, name, k) && Below(t, name, n) && l.id == name(k) && l.pool == None
    requires forall j :: 0 <= j < |src.members| ==>
      MemberSubnet(src.members[j], given) == RefImage("subnet", src.members[j].subnet, tr)
    ensures ApplyAll(t + [l], PoolBlock(src, given, name(k), lb, name, n), name, n) ==
      t + [l.(pool := Some(DestPool(name(n), src.attrs, src.monitor, MemberImages(src.members, tr))))]
  {
    hide Below, Fresh, MemberBlock, MemberImages, MemberSubnet, Apply, ApplyAll;
    var create := CreatePool(name(k), src.attrs);
    var monitor, members := MonitorBlock(src, name(n), lb), MemberBlock(src.members, given, name(n), lb);
    ApplyStepThen(t + [l], create, lb, monitor + members, name, n);
    TouchNewest(t, l, create, name(n), name, k);
    var l1 := l.(pool := Some(DestPool(name(n), src.attrs, None, [])));
    var l2 := l1.(pool := Some(DestPool(name(n), src.attrs, src.monitor, [])));
    if src.monitor.Some? {
      var req := CreateMonitor(name(n), src.monitor.value);
      ApplyStepThen(t + [l1], req, lb, members, name, n + 2);
      TouchNewest(t, l1, req, name(n + 2), name, n);
      MembersBuilt(t, l2, src.members, given, tr, lb, name, n, n + 4);
    } else {
      assert monitor + members == members;
      MembersBuilt(t, l2, src.members, given, tr, lb, name, n, n + 2);
    }
    assert [] + MemberImages(src.members, tr) == MemberImages(src.members, tr);
  }

  /** The copy of listener `i` when its block starts at position `n`. */
  function ListenerCopy(src: SourceLb, i: nat, tr: Translation, name: Naming, n: nat): (l: DestListener)
    requires i < |src.listeners|
    ensures ListenerImage(src, i, l, tr)
  {
    DestListener(name(n), src.listeners[i].attrs,
      if Carries(src, i) then
        var p := src.pools[src.listeners[i].pool];
        Some(DestPool(name(n + 2), p.attrs, p.monitor, MemberImages(p.members, tr)))
      else None)
  }

  lemma BelowGrows(t: Tree, l: DestListener, name: Naming, n: nat, m: nat)
    requires Fresh(name) && Below(t, name, n) && n < m && l.id == name(n)
    requires l.pool.Some? ==> n + 2 < m && l.pool.value.id == name(n + 2)
    ensures Below(t, name, m) && Below(t + [l], name, m)
  {
    forall x | x in t + [l]
      ensures forall j: nat :: m <= j ==> x.id != name(j) && (x.pool.Some? ==> x.pool.value.id != name(j))
    {
      if x !in t { assert x == l; }
    }
  }

  lemma ListenerBuilt(t: Tree, src: SourceLb, given: seq<Migrated>, tr: Translation, i: nat, lb: string,
          name: Naming, n: nat)
    requires Fresh(name) && i < |src.listeners| && Below(t, name, n) && SubnetsFound(src, given, tr)
    ensures var block := ListenerBlock(src, given, i, lb, name, n);
      && ApplyAll(t, block, name, n) == t + [ListenerCopy(src, i, tr, name, n)]
      && Below(t + [ListenerCopy(src, i, tr, name, n)], name, n + |block|)
  {
    hide Below, Fresh, FirstNamer, MemberImages, ApplyAll, PoolBlock;
    var create := CreateListener(lb, src.listeners[i].attrs);
    var l0 := DestListener(name(n), src.listeners[i].attrs, None);
    if Carries(src, i) {
      var p := src.pools[src.listeners[i].pool];
      ApplyStepThen(t, create, lb, PoolBlock(p, given, name(n), lb, name, n + 2), name, n);
      BelowGrows(t, l0, name, n, n + 2);
      PoolBuilt(t, l0, p, given, tr, lb, name, n, n + 2);
      PoolBlockLength(p, given, name(n), lb, name, n + 2);
    } else {
      ApplyStep(t, create, lb, name, n);
      assert [create, WaitActive(lb)] + [] == [create, WaitActive(lb)];
    }
    BelowGrows(t, ListenerCopy(src, i, tr, name, n), name, n, n + |ListenerBlock(src, given, i, lb, name, n)|);
  }

  lemma PoolBlockLength(p: SourcePool, given: seq<Migrated>, listener: string, lb: string, name: Naming, n: nat)
    ensures |PoolBlock(p, given, listener, lb, name, n)| >= 2
  {
  }

  lemma {:induction false} BlocksBuilt(t: Tree, src: SourceLb, given: seq<Migrated>, tr: Translation, i: nat,
          lb: string, name: Naming, n: nat)
    requires Fresh(name) && i <= |src.listeners| && Below(t, name, n) && SubnetsFound(src, given, tr)
    requires TreeImage(src, i, t, tr)
    ensures TreeImage(src, |src.listeners|, ApplyAll(t, Blocks(src, given, i, lb, name, n), name, n), tr)
    decreases |src.listeners| - i
  {
    hide Below, Fresh, SubnetsFound, ListenerBlock, ListenerImage, ListenerCopy;
    if i < |src.listeners| {
      var block := ListenerBlock(src, given, i, lb, name, n);
      var l := ListenerCopy(src, i, tr, name, n);
      ListenerBuilt(t, src, given, tr, i, lb, name, n);
      ApplyConcat(t, block, Blocks(src, given, i + 1, lb, name, n + |block|), name, n);
      BlocksBuilt(t + [l], src, given, tr, i + 1, lb, name, n + |block|);
    }
  }

  lemma {:induction false} FipsBuildNothing(t: Tree, fips: seq<string>, given: seq<Migrated>, port: string,
          name: Naming, n: nat)
    ensures ApplyAll(t, FipBlock(fips, given, port), name, n) == t
    decreases |fips|
  {
    if fips != [] {
      var fip := Lookup(given, Key("floating-ip", fips[0]));
      var rest := FipBlock(fips[1..], given, port);
      if fip.Err? {
        assert [] + rest == rest;
        FipsBuildNothing(t, fips[1..], given, port, name, n);
      } else {
        TouchElsewhere(t, UpdateIp(fip.value, port), name(n));
        assert ([UpdateIp(fip.value, port)] + rest)[1..] == rest;
        FipsBuildNothing(t, fips[1..], given, port, name, n + 1);
      }
    }
  }

  // ---- Reported dependencies suffice ----

  lemma {:induction false} MemberKeys(ms: seq<SourceMember>)
    ensures forall j :: 0 <= j < |ms| && ms[j].subnet != "" ==> Key("subnet", ms[j].subnet) in KeySet(MemberDeps(ms))
    decreases |ms|
  {
    if ms != [] {
      KeySetConcat(IfSet("subnet", ms[0].subnet), MemberDeps(ms[1..]));
      MemberKeys(ms[1..]);
      forall j | 0 <= j < |ms| && ms[j].subnet != "" ensures Key("subnet", ms[j].subnet) in KeySet(MemberDeps(ms)) {
        if j > 0 { assert ms[j] == ms[1..][j - 1]; }
      }
    }
  }

  lemma {:induction false} ListenerKeys(src: SourceLb, ls: seq<Listener>, i: nat)
    requires i < |ls| && HasPool(src, ls[i])
    ensures KeySet(MemberDeps(src.pools[ls[i].pool].members)) <= KeySet(ListenerDeps(src, ls))
    decreases |ls|
  {
    var own := if HasPool(src, ls[0]) then MemberDeps(src.pools[ls[0].pool].members) else [];
    KeySetConcat(own, ListenerDeps(src, ls[1..]));
    if i > 0 { ListenerKeys(src, ls[1..], i - 1); }
  }

  lemma {:induction false} FipKeys(fips: seq<string>)
    ensures forall i :: 0 <= i < |fips| && fips[i] != "" ==> Key("floating-ip", fips[i]) in KeySet(FipDeps(fips))
    decreases |fips|
  {
    if fips != [] {
      KeySetConcat(IfSet("floating-ip", fips[0]), FipDeps(fips[1..]));
      FipKeys(fips[1..]);
      forall i | 0 <= i < |fips| && fips[i] != "" ensures Key("floating-ip", fips[i]) in KeySet(FipDeps(fips)) {
        if i > 0 { assert fips[i] == fips[1..][i - 1]; }
      }
    }
  }

  lemma ReportedKeys(cfg: Config, src: SourceLb)
    ensures KeySet(Reported(cfg, src)) == KeySet(IdentityDeps(cfg, src.project))
      + KeySet(IfSet("subnet", src.vipSubnet))
      + KeySet(IfSet("network", src.vipNetwork)) + KeySet(ListenerDeps(src, src.listeners))
      + KeySet(if src.vipPort == "" then [] else FipDeps(src.fips))
  {
    var a, b, c, d := IdentityDeps(cfg, src.project), IfSet("subnet", src.vipSubnet),
      IfSet("network", src.vipNetwork), ListenerDeps(src, src.listeners);
    var e := if src.vipPort == "" then [] else FipDeps(src.fips);
    KeySetConcat(a, b);
    KeySetConcat(a + b, c);
    KeySetConcat(a + b + c, d);
    KeySetConcat(a + b + c + d, e);
  }

  lemma LookupReported(cfg: Config, src: SourceLb, given: seq<Migrated>, tr: Translation, k: Key)
    requires Covers(given, Reported(cfg, src), tr) && k in KeySet(Reported(cfg, src))
    ensures Lookup(given, k) == Ok(tr(k))
  {
    LookupCovered(given, Reported(cfg, src), tr, k);
  }

  /** Given the list the manager passes no lookup fails: the load balancer is requested with the
      images of its references, and no member loses its subnet. */
  lemma LookupsSucceed(cfg: Config, src: SourceLb, given: seq<Migrated>, tr: Translation)
    requires Covers(given, Reported(cfg, src), tr)
    ensures LbRequest(cfg, src, given) == Ok(CreateLoadBalancer(
      RefImage("subnet", src.vipSubnet, tr), RefImage("network", src.vipNetwork, tr),
        IdentityImage(cfg, src.project, tr), src.attrs))
    ensures SubnetsFound(src, given, tr)
    ensures src.vipPort != "" ==> forall i :: 0 <= i < |src.fips| && src.fips[i] != "" ==>
      Lookup(given, Key("floating-ip", src.fips[i])) == Ok(tr(Key("floating-ip", src.fips[i])))
  {
    ReportedKeys(cfg, src);
    if src.vipSubnet != "" { LookupReported(cfg, src, given, tr, Key("subnet", src.vipSubnet)); }
    if src.vipNetwork != "" { LookupReported(cfg, src, given, tr, Key("network", src.vipNetwork)); }
    if cfg.multitenant && src.project != "" { LookupReported(cfg, src, given, tr, Key("project", src.project)); }
    forall i | 0 <= i < |src.listeners| && HasPool(src, src.listeners[i])
      ensures MembersFound(src.pools[src.listeners[i].pool].members, given, tr)
    {
      var ms := src.pools[src.listeners[i].pool].members;
      MemberKeys(ms);
      ListenerKeys(src, src.listeners, i);
      forall j | 0 <= j < |ms| ensures MemberSubnet(ms[j], given) == RefImage("subnet", ms[j].subnet, tr) {
        if ms[j].subnet != "" { LookupReported(cfg, src, given, tr, Key("subnet", ms[j].subnet)); }
      }
    }
    if src.vipPort != "" {
      FipKeys(src.fips);
      forall i | 0 <= i < |src.fips| && src.fips[i] != ""
        ensures Lookup(given, Key("floating-ip", src.fips[i])) == Ok(tr(Key("floating-ip", src.fips[i])))
      {
        LookupReported(cfg, src, given, tr, Key("floating-ip", src.fips[i]));
      }
    }
  }

  // ---- Floating IPs ----

  /** The copies of the floating IPs, moved to the new VIP port in order. */
  function FipImages(fips: seq<string>, tr: Translation, port: string): (r: seq<Request>)
    ensures (forall i :: 0 <= i < |fips| ==> fips[i] != "") ==>
      |r| == |fips| && forall i :: 0 <= i < |fips| ==> r[i] == UpdateIp(tr(Key("floating-ip", fips[i])), port)
  {
    if fips == [] then []
    else
      var first := if fips[0] == "" then [] else [UpdateIp(tr(Key("floating-ip", fips[0])), port)];
      first + FipImages(fips[1..], tr, port)
  }

  lemma {:induction false} FipsMapped(fips: seq<string>, given: seq<Migrated>, tr: Translation, port: string)
    requires forall i :: 0 <= i < |fips| ==>
      var k := Key("floating-ip", fips[i]);
      Lookup(given, k) == if fips[i] == "" then Err(NotFound) else Ok(tr(k))
    ensures FipBlock(fips, given, port) == FipImages(fips, tr, port)
    decreases |fips|
  {
    if fips != [] { FipsMapped(fips[1..], given, tr, port); }
  }

  lemma {:induction false} FipsUnmapped(fips: seq<string>, given: seq<Migrated>, port: string)
    requires forall i :: 0 <= i < |fips| ==> Lookup(given, Key("floating-ip", fips[i])) == Err(NotFound)
    ensures FipBlock(fips, given, port) == []
    decreases |fips|
  {
    if fips != [] { FipsUnmapped(fips[1..], given, port); }
  }

  lemma {:induction false} FipDepsTyped(fips: seq<string>)
    ensures forall k :: k in KeySet(FipDeps(fips)) ==> k.rtype == "floating-ip" && k.id != ""
    decreases |fips|
  {
    if fips != [] {
      KeySetConcat(IfSet("floating-ip", fips[0]), FipDeps(fips[1..]));
      FipDepsTyped(fips[1..]);
    }
  }

  lemma {:induction false} MemberDepsTyped(ms: seq<SourceMember>)
    ensures forall k :: k in KeySet(MemberDeps(ms)) ==> k.rtype == "subnet"
    decreases |ms|
  {
    if ms != [] {
      KeySetConcat(IfSet("subnet", ms[0].subnet), MemberDeps(ms[1..]));
      MemberDepsTyped(ms[1..]);
    }
  }

  lemma {:induction false} ListenerDepsTyped(src: SourceLb, ls: seq<Listener>)
    ensures forall k :: k in KeySet(ListenerDeps(src, ls)) ==> k.rtype == "subnet"
    decreases |ls|
  {
    if ls != [] {
      var own := if HasPool(src, ls[0]) then MemberDeps(src.pools[ls[0].pool].members) else [];
      if HasPool(src, ls[0]) { MemberDepsTyped(src.pools[ls[0].pool].members); }
      KeySetConcat(own, ListenerDeps(src, ls[1..]));
      ListenerDepsTyped(src, ls[1..]);
    }
  }

  lemma FipReportedIff(cfg: Config, src: SourceLb, id: string)
    requires id in src.fips
    ensures Key("floating-ip", id) in KeySet(Reported(cfg, src)) <==> src.vipPort != "" && id != ""
  {
    ReportedKeys(cfg, src);
    ListenerDepsTyped(src, src.listeners);
    FipDepsTyped(src.fips);
    FipKeys(src.fips);
  }

  /** Given the list the manager passes, all floating IPs of the source's VIP port are moved to the
      new one, and none when the source has no VIP port. */
  lemma FloatingIpsFollow(cfg: Config, src: SourceLb, given: seq<Migrated>, tr: Translation, destPort: string)
    requires Covers(given, Reported(cfg, src), tr)
    ensures FipBlock(src.fips, given, destPort) == if src.vipPort == "" then [] else FipImages(src.fips, tr, destPort)
  {
    hide Lookup, Covers, KeySet, Reported, FipBlock, FipImages;
    LookupsCovered(given, Reported(cfg, src), tr);
    forall i | 0 <= i < |src.fips|
      ensures Lookup(given, Key("floating-ip", src.fips[i])) ==
        if src.vipPort == "" || src.fips[i] == "" then Err(NotFound) else Ok(tr(Key("floating-ip", src.fips[i])))
    {
      FipReportedIff(cfg, src, src.fips[i]);
    }
    if src.vipPort == "" {
      FipsUnmapped(src.fips, given, destPort);
    } else {
      FipsMapped(src.fips, given, tr, destPort);
    }
  }

  /** A request on the tree of load balancer `lb`: waiting for it, or creating a child. */
  predicate OnTree(req: Request, lb: string) {
    || (req.WaitActive? && req.lb == lb) || (req.CreateListener? && req.lb == lb)
    || req.CreatePool? || req.CreateMonitor? || req.CreateMember?
  }

  predicate AllOnTree(reqs: seq<Request>, lb: string) {
    forall i :: 0 <= i < |reqs| ==> OnTree(reqs[i], lb)
  }

  lemma {:induction false} MembersOnTree(ms: seq<SourceMember>, given: seq<Migrated>, pool: string, lb: string)
    ensures AllOnTree(MemberBlock(ms, given, pool, lb), lb)
    decreases |ms|
  {
    if ms != [] { MembersOnTree(ms[1..], given, pool, lb); }
  }

  lemma ListenerOnTree(src: SourceLb, given: seq<Migrated>, i: nat, lb: string, name: Naming, n: nat)
    requires i < |src.listeners|
    ensures AllOnTree(ListenerBlock(src, given, i, lb, name, n), lb)
  {
    hide MemberBlock;
    if Carries(src, i) {
      MembersOnTree(src.pools[src.listeners[i].pool].members, given, name(n + 2), lb);
    }
  }

  lemma {:induction false} BlocksOnTree(src: SourceLb, given: seq<Migrated>, i: nat, lb: string, name: Naming, n: nat)
    requires i <= |src.listeners|
    ensures AllOnTree(Blocks(src, given, i, lb, name, n), lb)
    decreases |src.listeners| - i
  {
    hide ListenerBlock;
    if i < |src.listeners| {
      ListenerOnTree(src, given, i, lb, name, n);
      BlocksOnTree(src, given, i + 1, lb, name, n + |ListenerBlock(src, given, i, lb, name, n)|);
    }
  }

  /** The first `m` requests are on the tree; the others move the copies of all floating IPs of the source's
      VIP port to the new one, in order, if both have one, and there are no others if not. */
  predicate MovesFips(src: SourceLb, reqs: seq<Request>, m: nat, lb: string, tr: Translation, destPort: string) {
    && m <= |reqs| && AllOnTree(reqs[..m], lb)
    && reqs[m..] == if src.vipPort != "" && destPort != "" then FipImages(src.fips, tr, destPort) else []
  }

  /** Given the list the manager passes, the plan waits for, and creates listeners of, the load balancer it
      is made for, and then moves its floating IPs. */
  lemma PlanMovesFips(cfg: Config, src: SourceLb, given: seq<Migrated>, tr: Translation, destPort: string,
          name: Naming, n: nat)
    requires Covers(given, Reported(cfg, src), tr)
    ensures exists m :: MovesFips(src, Plan(src, given, destPort, name, n), m, name(n), tr, destPort)
  {
    hide Covers, Blocks, FipBlock, FipImages;
    var tree, fips := [WaitActive(name(n))] + Blocks(src, given, 0, name(n), name, n + 2),
      if destPort == "" then [] else FipBlock(src.fips, given, destPort);
    BlocksOnTree(src, given, 0, name(n), name, n + 2);
    FloatingIpsFollow(cfg, src, given, tr, destPort);
    var reqs := Plan(src, given, destPort, name, n);
    assert reqs == tree + fips;
    assert reqs[..|tree|] == tree && reqs[|tree|..] == fips;
    assert MovesFips(src, reqs, |tree|, name(n), tr, destPort);
  }

  // ---- Main result ----

  lemma NothingCopied(src: SourceLb, tr: Translation, name: Naming, n: nat)
    ensures TreeImage(src, 0, [], tr) && Below([], name, n)
  {
  }

  /** The tree the whole plan builds has one listener per source listener, in order, and the copy of
      every existing default pool hangs on the copy of the first listener naming it. */
  lemma PlanBuildsImage(cfg: Config, src: SourceLb, given: seq<Migrated>, tr: Translation, destPort: string,
          name: Naming, n: nat)
    requires Fresh(name) && Covers(given, Reported(cfg, src), tr)
    ensures TreeImage(src, |src.listeners|, ApplyAll([], Plan(src, given, destPort, name, n), name, n + 1), tr)
  {
    hide Covers, SubnetsFound, LbRequest, Lookup, TreeImage, Blocks, FipBlock, ApplyAll, Fresh;
    LookupsSucceed(cfg, src, given, tr);
    NothingCopied(src, tr, name, n + 2);
    var lb := name(n);
    var tree, fips := Blocks(src, given, 0, lb, name, n + 2),
      if destPort == "" then [] else FipBlock(src.fips, given, destPort);
    var wait := [WaitActive(lb)];
    ApplyConcat([], wait, tree + fips, name, n + 1);
    ApplyWait([], lb, name, n + 1);
    ApplyConcat([], tree, fips, name, n + 2);
    BlocksBuilt([], src, given, tr, 0, lb, name, n + 2);
    var t := ApplyAll([], tree, name, n + 2);
    ApplyNone(t, name, n + 2 + |tree|);
    if destPort != "" { FipsBuildNothing(t, src.fips, given, destPort, name, n + 2 + |tree|); }
  }

  /** The same, field by field. */
  lemma PlanBuildsTree(cfg: Config, src: SourceLb, given: seq<Migrated>, tr: Translation, destPort: string,
          name: Naming, n: nat)
    requires Fresh(name) && Covers(given, Reported(cfg, src), tr)
    ensures var t := ApplyAll([], Plan(src, given, destPort, name, n), name, n + 1);
      && |t| == |src.listeners|
      && forall i :: 0 <= i < |t| ==>
           var k := src.listeners[i].pool;
           && t[i].attrs == src.listeners[i].attrs
           && (t[i].pool.Some? <==> k != "" && k in src.pools && forall j :: 0 <= j < i ==> src.listeners[j].pool != k)
           && (t[i].pool.Some? ==>
                 var p, d := src.pools[k], t[i].pool.value;
                 && d.attrs == p.attrs && d.monitor == p.monitor && |d.members| == |p.members|
                 && forall j :: 0 <= j < |d.members| ==>
                      && d.members[j].attrs == p.members[j].attrs
                      && d.members[j].subnet ==
                           if p.members[j].subnet == "" then "" else tr(Key("subnet", p.members[j].subnet)))
  {
    PlanBuildsImage(cfg, src, given, tr, destPort, name, n);
    var t := ApplyAll([], Plan(src, given, destPort, name, n), name, n + 1);
    hide ApplyAll, Plan, Covers;
    forall i | 0 <= i < |t| ensures ListenerImage(src, i, t[i], tr) { }
  }

  /** No two listeners name the same existing pool. */
  predicate NoSharedPools(src: SourceLb) {
    forall i :: 0 <= i < |src.listeners| && HasPool(src, src.listeners[i]) ==> FirstNamer(src, i)
  }

  /** The copy is a relabelling of the whole source tree exactly when no two listeners share a pool:
      otherwise some listener with a pool has a copy without one. */
  lemma RelabelledIffNoSharedPools(src: SourceLb, t: Tree, tr: Translation)
    requires TreeImage(src, |src.listeners|, t, tr)
    ensures NoSharedPools(src) <==> forall i :: 0 <= i < |src.listeners| ==>
      (t[i].pool.Some? <==> HasPool(src, src.listeners[i]))
  {
    if !NoSharedPools(src) {
      var i :| 0 <= i < |src.listeners| && HasPool(src, src.listeners[i]) && !FirstNamer(src, i);
      assert ListenerImage(src, i, t[i], tr);
    } else {
      forall i | 0 <= i < |src.listeners| ensures t[i].pool.Some? <==> HasPool(src, src.listeners[i]) {
        assert ListenerImage(src, i, t[i], tr);
      }
    }
  }

  /** `i` is the one listener for `k` whose copy has a pool. */
  predicate OnlyCarrier(src: SourceLb, t: Tree, k: string, i: nat)
    requires |t| == |src.listeners|
  {
    && i < |t| && src.listeners[i].pool == k && t[i].pool.Some?
    && forall j :: 0 <= j < |t| && j != i && src.listeners[j].pool == k ==> t[j].pool.None?
  }

  /** Every existing default pool is copied exactly once. */
  lemma EachPoolOnce(src: SourceLb, t: Tree, tr: Translation, i: nat)
    requires TreeImage(src, |src.listeners|, t, tr) && i < |src.listeners| && HasPool(src, src.listeners[i])
    ensures exists f: nat :: f <= i && OnlyCarrier(src, t, src.listeners[i].pool, f)
  {
    var k := src.listeners[i].pool;
    var f := FirstOf(src, k, i);
    assert ListenerImage(src, f, t[f], tr);
    forall j | 0 <= j < |t| && j != f && src.listeners[j].pool == k ensures t[j].pool.None? {
      assert ListenerImage(src, j, t[j], tr);
      assert f < j;
    }
    assert OnlyCarrier(src, t, k, f);
  }

  lemma {:induction false} FirstOf(src: SourceLb, k: string, i: nat) returns (f: nat)
    requires i < |src.listeners| && src.listeners[i].pool == k
    ensures f <= i && src.listeners[f].pool == k && forall j :: 0 <= j < f ==> src.listeners[j].pool != k
    decreases i
  {
    f := i;
    if j: nat :| j < i && src.listeners[j].pool == k { f := FirstOf(src, k, j); }
  }
}
